/**
 * One worker's control service, in the form it has in internal/control: fields guarded by a
 * lock, a reconcile pass that changes them, Block as a latch, and Change as a poll. Between
 * any two lock-protected blocks or store calls, Interfere lets everything else act: blocks
 * raised by delivery workers, half done or done, other workers at the store, and the clock.
 */
module ControlService {
  import opened Basics
  import opened Strings
  import opened ControlStore
  import opened Streams
  import opened ControlMachine
  import opened ControlPass

  datatype SourceState = SourceStarting | SourceRunning | SourceBlocked | SourceUnavailable

  datatype SourceStatus = SourceStatus(state: SourceState, error: string)

  datatype Health = Starting | Ready | Degraded

  datatype Destination = Destination(id: string, sources: seq<string>)

  /** A consumer that was created. */
  datatype Instance = Instance(destination: string, stopped: bool)

  datatype DesiredRow = DesiredRow(id: string, row: Row)

  /** What is registered stays registered as it is, and what is blocked stays blocked. */
  predicate Outlives(was: Registration, now: Registration) {
    now.(blocked := "") == was.(blocked := "") && (was.blocked != "" ==> now.blocked != "")
  }

  datatype PassEnd = Completed | ContextEnded | DependencyFailed

  /** A pass that was made: what the surroundings answered, and how it ended. */
  datatype Made = Made(answers: Answers, end: PassEnd)

  // ----- what the surroundings answer during one pass

  /** The renewal did not reach the store, took effect without an answer, or was confirmed. */
  datatype Renewal = Lost | Unanswered | Confirmed

  /** Whether the store answers about a source, and what the monitor says if it is asked. */
  datatype Inspection = Inspection(reached: bool, answer: SourceStatus)

  /** Destinations whose consumer has ended by itself, cannot be created, or is ready. */
  datatype Consumers = Consumers(finished: set<string>, refused: set<string>, ready: set<string>)

  /** ended: the surrounding context ends; lost: subscriptions whose observation does not reach the store. */
  datatype Answers = Answers(
    renewal: Renewal, read: bool, pinged: bool, ended: bool,
    seen: map<string, Inspection>, consumers: Consumers, lost: set<string>)

  /** Some pass renews the lease in the store. */
  predicate Renews(passes: seq<Answers>) { exists i :: 0 <= i < |passes| && !passes[i].renewal.Lost? }

  predicate Healthy(a: Answers) { a.renewal.Confirmed? && a.read && a.pinged }

  /** The monitor never blocks without a reason; a source nothing is said about is out of reach. */
  function SeenOf(a: Answers, id: string): (i: Inspection)
    ensures id in a.seen && !a.seen[id].answer.state.SourceBlocked? ==> i == a.seen[id]
    ensures id in a.seen && a.seen[id].answer.error != "" ==> i == a.seen[id]
    ensures id !in a.seen ==> !i.reached
    ensures i.answer.state.SourceBlocked? ==> i.answer.error != ""
  {
    if id in a.seen && (a.seen[id].answer.state.SourceBlocked? ==> a.seen[id].answer.error != "") then a.seen[id]
    else Inspection(false, SourceStatus(SourceUnavailable, ""))
  }

  /** The empty registration that reading a missing map entry yields. */
  const NoStream := Registration(Identity("", "", "", "", 0, []), Names("", "", "", "", ""), "", "")

  class Service {
    const store: Store
    const sources: seq<string>
    const destinations: seq<Destination>
    const workerID: string

    var clock: int
    var status: Health
    var control: bool
    var kafka: bool
    var leaseUntil: int
    var streams: map<string, Registration>
    var sourceStates: map<string, SourceStatus>
    var subscriptions: map<string, Subscription>
    var instances: seq<Instance>

    /** Sources for which a Block with a reason has finished its in-memory steps. */
    ghost var latched: set<string>
    /** Sources whose stored row was blocked when this service was created. */
    ghost const closed: set<string>
    /** The passes made so far, oldest first. */
    ghost var history: seq<Made>
    /** Sources for which a delivery worker has begun a Block. */
    ghost var raised: set<string>
    /** Registrations that the store held when a pass began: it holds them still. */
    ghost var floor: map<string, Registration>

    function Local(id: string): Registration
      reads this`streams
    {
      if id in streams then streams[id] else NoStream
    }

    predicate RunningSource(id: string)
      reads this`sourceStates
    {
      id in sourceStates && sourceStates[id].state.SourceRunning?
    }

    /** The dispatch fence. */
    predicate Allowed(id: string)
      reads this`control, this`kafka, this`clock, this`leaseUntil, this`sourceStates
    {
      control && kafka && clock < leaseUntil && RunningSource(id)
    }

    predicate StoredBlock(id: string)
      reads store`streams
    {
      id in store.streams && store.streams[id].blocked != ""
    }

    /** The stored row was blocked when the floor was taken. */
    ghost predicate Barred(id: string)
      reads this`floor
    {
      id in floor && floor[id].blocked != ""
    }

    ghost predicate FloorHolds()
      reads this`floor, store`streams
    {
      forall id :: id in floor ==> id in store.streams && Outlives(floor[id], store.streams[id])
    }

    /** A latched source is blocked; so is one whose stored row was blocked before this service began. */
    ghost predicate SourcesOk()
      reads this`streams, this`sourceStates, this`latched, this`floor, store`streams
    {
      && FloorHolds()
      && (forall id :: id in latched ==> Local(id).blocked != "" && !RunningSource(id))
      && (forall id :: id in closed ==> Barred(id) && !RunningSource(id))
    }

    /** Every consumer still running is the one its subscription holds. */
    ghost predicate ConsumersOk()
      reads this`subscriptions, this`instances
    {
      && (forall c :: 0 <= c < |instances| && !instances[c].stopped ==>
            instances[c].destination in subscriptions && subscriptions[instances[c].destination].consumer == Some(c))
      && (forall id :: id in subscriptions && subscriptions[id].consumer.Some? ==>
            var c := subscriptions[id].consumer.value; c < |instances| && instances[c].destination == id)
    }

    ghost predicate Valid()
      reads this`streams, this`sourceStates, this`latched, this`floor, this`subscriptions, this`instances,
            this`leaseUntil, this`clock, store
    {
      && store.Valid() && SourcesOk() && ConsumersOk() && leaseUntil <= clock + LEASE_TTL
      && workerID != "" && "" !in subscriptions
    }

    /** What holds of one subscription between passes: a held consumer is running, and the view is earned. */
    predicate SettledAt(id: string)
      requires id in subscriptions
      reads this`subscriptions, this`instances
    {
      var s := subscriptions[id];
      && Consistent(s)
      && (s.consumer.Some? ==> s.consumer.value < |instances| && !instances[s.consumer.value].stopped)
    }

    ghost predicate Settled()
      reads this`subscriptions, this`instances
    {
      forall id :: id in subscriptions ==> SettledAt(id)
    }

    /** No consumer is held and none runs. */
    ghost predicate Quiet()
      reads this`subscriptions, this`instances
    {
      && (forall id :: id in subscriptions ==> subscriptions[id].consumer == None)
      && (forall c :: 0 <= c < |instances| ==> instances[c].stopped)
    }

    constructor (store: Store, sources: seq<string>, destinations: seq<Destination>, workerID: string, clock: int)
      requires store.Valid() && workerID != "" && forall d :: d in destinations ==> d.id != ""
      ensures Valid() && Settled() && Quiet() && latched == {}
      ensures subscriptions.Keys == set d | d in destinations :: d.id
      ensures this.store == store && this.sources == sources && this.destinations == destinations
      ensures closed == set id | id in store.streams && store.streams[id].blocked != ""
      ensures forall id :: id in subscriptions ==> subscriptions[id] == Subscription(StateStarting, None, "", 0, None)
      ensures forall id :: id in sourceStates ==> id in sources && sourceStates[id] == SourceStatus(SourceStarting, "")
      ensures forall id :: id in sources ==> id in sourceStates
      ensures !control && !kafka && status == Starting && forall id :: !Allowed(id)
    {
      this.store, this.sources, this.destinations, this.workerID := store, sources, destinations, workerID;
      this.clock, status, control, kafka, leaseUntil := clock, Starting, false, false, clock;
      streams := map[];
      sourceStates := map id | id in sources :: SourceStatus(SourceStarting, "");
      subscriptions := map d | d in destinations :: d.id := Subscription(StateStarting, None, "", 0, None);
      instances, latched, raised, history, floor := [], {}, {}, [], store.streams;
      closed := set id | id in store.streams && store.streams[id].blocked != "";
    }

    // ----- sources

    /** sourceState: a latched block overrides whatever the caller observed. */
    method SetSourceState(id: string, state: SourceState, reason: string)
      requires Valid() && (state.SourceRunning? && Local(id).blocked == "" ==> id !in closed)
      modifies this`sourceStates
      ensures Valid()
      ensures var blocked := Local(id).blocked;
              sourceStates == old(sourceStates)[id := if blocked != "" then SourceStatus(SourceBlocked, blocked)
                                                      else SourceStatus(state, reason)]
    {
      var blocked := Local(id).blocked;
      sourceStates := sourceStates[id := if blocked != "" then SourceStatus(SourceBlocked, blocked)
                                         else SourceStatus(state, reason)];
    }

    /** The first lock-protected block of Block. An empty reason lifts the latch. */
    method LatchReason(id: string, reason: string)
      requires Valid()
      modifies this`streams, this`latched
      ensures Valid() && streams == old(streams)[id := old(Local(id)).(blocked := reason)]
      ensures latched == if reason != "" then old(latched) else old(latched) - {id}
    {
      streams := streams[id := Local(id).(blocked := reason)];
      if reason == "" { latched := latched - {id}; }
    }

    /** The second lock-protected block of Block. */
    method ShowBlocked(id: string, reason: string)
      requires Valid()
      modifies this`sourceStates, this`latched
      ensures Valid() && id in sourceStates && sourceStates[id].state.SourceBlocked?
      ensures sourceStates == old(sourceStates)[id := sourceStates[id]]
      ensures latched == old(latched) + if Local(id).blocked != "" then {id} else {}
    {
      SetSourceState(id, SourceBlocked, reason);
      if Local(id).blocked != "" { latched := latched + {id}; }
    }

    /** Local blocks stay, and a source's state changes only by one: it never starts running. */
    twostate predicate OnlyBlocks()
      reads this`sourceStates, this`streams
    {
      && (forall id :: old(Local(id)).blocked != "" ==> Local(id).blocked != "")
      && old(sourceStates).Keys <= sourceStates.Keys
      && (forall id :: id in sourceStates ==>
            || (sourceStates[id].state.SourceBlocked? && Local(id).blocked != "")
            || (id in old(sourceStates) && sourceStates[id] == old(sourceStates)[id]))
    }

    /** Desired rows only move on, and no row that is blocked is ever unblocked. */
    twostate predicate RowsGrow()
      reads store
    {
      && old(store.barred) <= store.barred
      && forall id :: id in old(store.subscriptions) ==>
           id in store.subscriptions && old(store.subscriptions)[id].revision <= store.subscriptions[id].revision
    }

    /** Registrations and their blocks stay. */
    twostate predicate BlocksStay()
      reads store
    {
      forall id :: id in old(store.streams) ==>
        id in store.streams && Outlives(old(store.streams)[id], store.streams[id])
    }

    /** The lease of this worker is as it was. */
    twostate predicate OwnLease()
      reads store
    {
      && (workerID in store.leases <==> workerID in old(store.leases))
      && (workerID in store.leases ==> store.leases[workerID] == old(store.leases)[workerID])
    }

    /** Rows grow, and nobody else touches this worker's own. */
    twostate predicate StoreKept()
      reads store
    {
      && RowsGrow() && OwnLease() && old(store.streams).Keys <= store.streams.Keys
      && forall id :: Same((workerID, id), old(store.observations), store.observations)
    }

    /** The stored lease, when a renewal was tried at this clock. */
    predicate LeaseIs(expires: int)
      reads store
    {
      workerID in store.leases && store.leases[workerID] == expires
    }

    predicate Same(k: (string, string), was: map<(string, string), Observation>,
                   now: map<(string, string), Observation>)
    {
      (k in now <==> k in was) && (k in now ==> now[k] == was[k])
    }

    /** One store operation of some other worker, or a block or a change request of this one. */
    method OtherStoreCall()
      requires store.Valid()
      modifies store
      ensures store.Valid() && StoreKept() && BlocksStay()
    {
      var id: string, text: string, number: int, registration: Registration := *, *, *, *;
      var worker: string := *;
      var pick: int := *;
      if pick == 0 {
        var _ := store.SetDesired(id, text);
      } else if pick == 1 && worker != workerID {
        var _ := store.ObserveSubscription(worker, id, number, text);
      } else if pick == 2 && worker != workerID {
        var _ := store.RenewLease(worker, LEASE_TTL, number);
      } else if pick == 3 && worker != workerID {
        var _ := store.ReleaseLease(worker);
      } else if pick == 4 {
        var _ := store.RegisterStream(id, registration);
      } else if pick == 5 {
        var _ := store.BlockSource(id, text);
      }
    }

    /** A local block that appears was raised by a delivery worker. */
    twostate predicate RaisedByOthers()
      reads this`streams, this`raised
    {
      && old(raised) <= raised
      && (forall id :: old(Local(id)).blocked == "" && Local(id).blocked != "" ==> id in raised)
    }

    /** What somebody else does at the store. */
    method OthersAtStore()
      requires Valid()
      modifies store
      ensures Valid() && StoreKept()
    {
      OtherStoreCall();
    }

    /** One lock-protected block of a delivery worker's Block. */
    method OthersBlock(id: string, reason: string, first: bool)
      requires Valid()
      modifies this`streams, this`sourceStates, this`latched, this`raised
      ensures Valid() && old(latched) <= latched && OnlyBlocks() && RaisedByOthers()
    {
      if first && reason != "" {
        LatchReason(id, reason);
        raised := raised + {id};
      } else if Local(id).blocked != "" {
        ShowBlocked(id, reason);
      }
    }

    /** Everything that may happen between two steps of the control loop. */
    method Interfere()
      requires Valid()
      modifies this`streams, this`sourceStates, this`latched, this`raised, this`clock, store
      ensures Valid() && old(clock) <= clock && old(latched) <= latched
      ensures OnlyBlocks() && StoreKept() && RaisedByOthers()
    {
      var count :| 0 <= count;
      for i := 0 to count
        invariant Valid() && old(clock) <= clock && old(latched) <= latched
        invariant OnlyBlocks() && StoreKept() && RaisedByOthers()
      {
        var pick: int, id: string, reason: string, first: bool := *, *, *, *;
        if pick == 0 {
          OthersBlock(id, reason, first);
        } else if pick == 1 {
          var later :| clock <= later;
          clock := later;
        } else {
          OthersAtStore();
        }
      }
    }

    /** The in-memory steps of Block: dispatch stops at once. */
    method BlockInMemory(id: string, reason: string)
      requires Valid()
      modifies this`streams, this`sourceStates, this`latched, this`raised, this`clock, store
      ensures Valid() && old(latched) - (if reason != "" then {} else {id}) <= latched
      ensures reason != "" ==> OnlyBlocks() && id in latched && Local(id).blocked != ""
      ensures id in sourceStates && sourceStates[id].state.SourceBlocked?
      ensures old(clock) <= clock && old(raised) <= raised && StoreKept()
    {
      LatchReason(id, reason);
      Interfere();
      ShowBlocked(id, reason);
    }

    /** Latches a source: in memory first, then in the store, which may be out of reach. */
    method Block(id: string, reason: string, reached: bool) returns (stored: bool)
      requires Valid()
      modifies this`streams, this`sourceStates, this`latched, this`raised, this`clock, store
      ensures Valid() && old(latched) - (if reason != "" then {} else {id}) <= latched
      ensures reason != "" ==>
                OnlyBlocks() && id in latched && Local(id).blocked != "" && !RunningSource(id) && !Allowed(id)
      ensures id in sourceStates && sourceStates[id].state.SourceBlocked?
      ensures stored ==> id in store.streams && store.streams[id].blocked == reason && StoredBlock(id)
      ensures stored ==> id in store.barred
      ensures reached && !Blank(reason) && id in old(store.streams) ==> stored
      ensures old(clock) <= clock && old(raised) <= raised && StoreKept()
    {
      BlockInMemory(id, reason);
      stored := StoreBlock(id, reason, reached);
    }

    method StoreBlock(id: string, reason: string, reached: bool) returns (stored: bool)
      requires Valid()
      modifies this`streams, this`sourceStates, this`latched, this`raised, this`clock, store
      ensures Valid() && OnlyBlocks() && StoreKept() && old(clock) <= clock && old(latched) <= latched
      ensures old(raised) <= raised
      ensures stored ==> id in store.streams && store.streams[id].blocked == reason && StoredBlock(id)
      ensures stored ==> id in store.barred
      ensures reached && !Blank(reason) && id in old(store.streams) ==> stored
    {
      Interfere();
      stored := false;
      if reached { stored := store.BlockSource(id, reason); }
    }

    /** cacheStream: keeps a block raised while the registration was being read. */
    method CacheStream(id: string, read: Registration) returns (registered: Registration)
      requires Valid()
      modifies this`streams
      ensures Valid() && streams == old(streams)[id := registered]
      ensures registered == if old(Local(id)).blocked != "" then read.(blocked := old(Local(id)).blocked) else read
    {
      var blocked := Local(id).blocked;
      registered := if blocked != "" then read.(blocked := blocked) else read;
      streams := streams[id := registered];
    }

    /** What one inspection has made of a source, if it was not blocked by then. */
    twostate predicate Inspected(id: string, seen: SourceStatus)
      reads this`streams, this`sourceStates
    {
      && id in sourceStates
      && (if Local(id).blocked != "" then sourceStates[id].state.SourceBlocked? else sourceStates[id] == seen)
    }

    /** Another source changes only by a block. */
    twostate predicate OthersOnlyBlock(id: string)
      reads this`streams, this`sourceStates
    {
      && (forall k :: old(Local(k)).blocked != "" ==> Local(k).blocked != "")
      && old(sourceStates).Keys <= sourceStates.Keys
      && (forall k :: k in sourceStates && k != id ==>
            || (sourceStates[k].state.SourceBlocked? && Local(k).blocked != "")
            || (k in old(sourceStates) && sourceStates[k] == old(sourceStates)[k]))
    }

    /** The registration that was read is kept, with any block raised meanwhile. */
    method KeepRegistration(id: string, read: Registration) returns (registered: Registration)
      requires Valid()
      modifies this`streams, this`sourceStates, this`latched, this`raised, this`clock, store
      ensures Valid() && old(clock) <= clock && old(latched) <= latched && StoreKept() && OnlyBlocks()
      ensures registered.blocked != "" ==> Local(id).blocked != ""
      ensures registered.blocked != "" && read.blocked == "" && old(Local(id)).blocked == "" ==> id in raised
      ensures old(raised) <= raised
      ensures read.blocked != "" ==> registered.blocked != ""
    {
      Interfere();
      registered := CacheStream(id, read);
      Interfere();
    }

    /** What the monitor says of a source that was not blocked. */
    method TakeAnswer(id: string, reached: bool, answer: SourceStatus)
      requires Valid() && id !in closed && (answer.state.SourceBlocked? ==> answer.error != "")
      modifies this`streams, this`sourceStates, this`latched, this`raised, this`clock, store
      ensures Valid() && old(clock) <= clock && old(latched) <= latched && StoreKept()
      ensures Inspected(id, answer) && OthersOnlyBlock(id) && old(raised) <= raised
      ensures answer.state.SourceBlocked? && reached && !Blank(answer.error) && id in old(store.streams) ==>
                id in store.barred
    {
      if answer.state.SourceBlocked? {
        var _ := Block(id, answer.error, reached);
      } else {
        SetSourceState(id, answer.state, answer.error);
      }
    }

    /** The source is registered: keep the registration, then ask the monitor. */
    method InspectRegistered(id: string, read: Registration, reached: bool, answer: SourceStatus)
      requires Valid() && id in store.streams && read == store.streams[id]
      requires answer.state.SourceBlocked? ==> answer.error != ""
      modifies this`streams, this`sourceStates, this`latched, this`raised, this`clock, store
      ensures Valid() && old(clock) <= clock && old(latched) <= latched && StoreKept()
      ensures Inspected(id, answer) && OthersOnlyBlock(id) && (read.blocked != "" ==> Local(id).blocked != "")
      ensures old(raised) <= raised
      ensures answer.state.SourceBlocked? && reached && !Blank(answer.error) && old(Local(id)).blocked == "" ==>
                id in store.barred || id in raised
    {
      var registered := KeepRegistration(id, read);
      if registered.blocked != "" {
        SetSourceState(id, SourceBlocked, registered.blocked);
      } else {
        TakeAnswer(id, reached, answer);
      }
    }

    /** The floor never falls. */
    twostate predicate FloorRises()
      reads this`floor
    {
      forall id :: id in old(floor) ==> id in floor && Outlives(old(floor)[id], floor[id])
    }

    /**
     * What an inspection makes of a source: left alone if it was blocked locally, unavailable without
     * the store, blocked if it is not registered or its row is blocked, and otherwise as the monitor says.
     * What the monitor blocks is blocked in the store, unless a delivery worker has raised a block of it.
     */
    twostate predicate Answered(id: string, seen: Inspection)
      reads this`streams, this`sourceStates, this`floor, this`raised, store`streams, store`barred
    {
      var local := old(Local(id)).blocked;
      if local != "" then OnlyBlocks() && (seen.reached && !Blank(local) && id in floor ==> StoredBlock(id))
      else
        && (!seen.reached ==> Inspected(id, SourceStatus(SourceUnavailable, "control state unavailable")))
        && (seen.reached && id !in store.streams ==>
              Inspected(id, SourceStatus(SourceBlocked, "source must be provisioned")))
        && (seen.reached && id in floor ==> Inspected(id, seen.answer))
        && (seen.reached && Barred(id) ==> Local(id).blocked != "" && !RunningSource(id))
        && (RunningSource(id) ==> seen.reached && seen.answer.state.SourceRunning?)
        && (seen.reached && seen.answer.state.SourceBlocked? && !Blank(seen.answer.error) && id in floor ==>
              id in store.barred || id in raised)
    }

    /** Takes what is registered for one source into the floor. */
    method RaiseFloor(id: string)
      requires Valid()
      modifies this`floor
      ensures Valid() && FloorRises()
      ensures id in store.streams ==> floor == old(floor)[id := store.streams[id]]
      ensures id !in store.streams ==> floor == old(floor)
    {
      if id in store.streams { floor := floor[id := store.streams[id]]; }
    }

    /** The floor is what is registered now. */
    ghost method ResetFloor()
      requires Valid()
      modifies this`floor
      ensures Valid() && floor == store.streams
    {
      floor := store.streams;
    }

    /** One inspection. A locally blocked source is left as it is, but its block is stored again. */
    method InspectSource(id: string, seen: Inspection)
      requires Valid() && (seen.answer.state.SourceBlocked? ==> seen.answer.error != "")
      modifies this`streams, this`sourceStates, this`latched, this`raised, this`clock, this`floor, store
      ensures Valid() && old(clock) <= clock && old(latched) <= latched && StoreKept() && OthersOnlyBlock(id)
      ensures FloorRises() && floor.Keys <= old(floor).Keys + {id}
      ensures forall k :: k in old(floor) && k != id ==> floor[k] == old(floor)[k]
      ensures (id in floor <==> id in old(store.streams)) && (Barred(id) <==> old(StoredBlock(id)))
      ensures Answered(id, seen)
    {
      RaiseFloor(id);
      Inspect(id, seen);
    }

    /** The store's answer about a source that was not blocked locally, and then the monitor's. */
    method InspectOpen(id: string, seen: Inspection)
      requires Valid() && (seen.answer.state.SourceBlocked? ==> seen.answer.error != "")
      modifies this`streams, this`sourceStates, this`latched, this`raised, this`clock, store
      ensures Valid() && old(clock) <= clock && old(latched) <= latched && StoreKept() && OthersOnlyBlock(id)
      ensures old(raised) <= raised
      ensures !seen.reached ==> Inspected(id, SourceStatus(SourceUnavailable, "control state unavailable"))
      ensures seen.reached && id !in store.streams ==>
                Inspected(id, SourceStatus(SourceBlocked, "source must be provisioned"))
      ensures seen.reached && id in old(store.streams) ==> Inspected(id, seen.answer)
      ensures seen.reached && old(StoredBlock(id)) ==> Local(id).blocked != ""
      ensures RunningSource(id) ==> seen.reached && seen.answer.state.SourceRunning?
      ensures seen.reached && seen.answer.state.SourceBlocked? && !Blank(seen.answer.error)
              && id in old(store.streams) ==>
                old(Local(id)).blocked != "" || id in store.barred || id in raised
    {
      if !seen.reached {
        SetSourceState(id, SourceUnavailable, "control state unavailable");
      } else if id !in store.streams {
        SetSourceState(id, SourceBlocked, "source must be provisioned");
      } else {
        InspectRegistered(id, store.streams[id], seen.reached, seen.answer);
      }
    }

    method Inspect(id: string, seen: Inspection)
      requires Valid() && (seen.answer.state.SourceBlocked? ==> seen.answer.error != "")
      modifies this`streams, this`sourceStates, this`latched, this`raised, this`clock, store
      ensures Valid() && old(clock) <= clock && old(latched) <= latched && StoreKept() && OthersOnlyBlock(id)
      ensures Answered(id, seen)
    {
      var local := Local(id).blocked;
      Interfere();
      if local != "" {
        if seen.reached { var _ := store.BlockSource(id, local); }
      } else {
        InspectOpen(id, seen);
      }
    }

    // ----- subscriptions

    ghost predicate SettledBut(id: string)
      reads this`subscriptions, this`instances
    {
      forall k :: k in subscriptions && k != id ==> SettledAt(k)
    }

    /** A write of one subscription under the lock that leaves its consumer alone. */
    method Write(id: string, s: Subscription)
      requires Valid() && SettledBut(id) && id in subscriptions && s.consumer == subscriptions[id].consumer
      modifies this`subscriptions
      ensures Valid() && SettledBut(id) && subscriptions == old(subscriptions)[id := s]
    {
      subscriptions := subscriptions[id := s];
    }

    /** consumer.Stop, which waits for the consumer to end, and then the cleared handle. */
    method StopConsumer(id: string)
      requires Valid() && SettledBut(id) && id in subscriptions && subscriptions[id].consumer.Some?
      modifies this`streams, this`sourceStates, this`latched, this`raised, this`clock, this`subscriptions,
               this`instances, store
      ensures Valid() && SettledBut(id) && old(clock) <= clock && old(latched) <= latched && OnlyBlocks() && StoreKept()
      ensures subscriptions == old(subscriptions)[id := old(subscriptions)[id].(consumer := None)]
      ensures var c := old(subscriptions)[id].consumer.value;
              instances == old(instances)[c := old(instances)[c].(stopped := true)]
      ensures forall c :: 0 <= c < |instances| && instances[c].destination == id ==> instances[c].stopped
    {
      Interfere();
      var c := subscriptions[id].consumer.value;
      instances := instances[c := instances[c].(stopped := true)];
      subscriptions := subscriptions[id := subscriptions[id].(consumer := None)];
    }

    /** The factory and the handle: no consumer of the destination may still be running. */
    method CreateInstance(id: string)
      requires Valid() && SettledBut(id) && id in subscriptions && subscriptions[id].consumer == None
      requires forall c :: 0 <= c < |instances| && instances[c].destination == id ==> instances[c].stopped
      modifies this`subscriptions, this`instances
      ensures Valid() && SettledBut(id) && instances == old(instances) + [Instance(id, false)]
      ensures subscriptions == old(subscriptions)[id :=
                old(subscriptions)[id].(consumer := Some(|old(instances)|), view := StateStarting, error := "")]
    {
      instances := instances + [Instance(id, false)];
      subscriptions := subscriptions[id := subscriptions[id].(
                         consumer := Some(|instances| - 1), view := StateStarting, error := "")];
    }

    /** The source feeds the destination, as it is configured. */
    ghost predicate Feeds(source: string, id: string) {
      exists k :: Configured(destinations, id, k) && source in destinations[k].sources
    }

    ghost predicate AllRunning(id: string)
      reads this`sourceStates
    {
      forall s :: Feeds(s, id) ==> RunningSource(s)
    }

    /** Whether every source of the destination is running, and if not which one is first. */
    method DestinationReady(id: string) returns (ready: bool, reason: string)
      ensures ready <==> AllRunning(id)
      ensures forall k :: Configured(destinations, id, k) ==>
                (ready <==> forall s :: s in destinations[k].sources ==> RunningSource(s))
      ensures !ready ==> exists k, i ::
                && Configured(destinations, id, k) && 0 <= i < |destinations[k].sources|
                && !RunningSource(destinations[k].sources[i])
                && (forall j :: 0 <= j < i ==> RunningSource(destinations[k].sources[j]))
                && reason == "source unavailable: " + destinations[k].sources[i]
    {
      var ids := SourcesOf(destinations, id);
      ghost var k := WhereConfigured(destinations, id);
      for i := 0 to |ids|
        invariant forall j :: 0 <= j < i ==> RunningSource(ids[j])
      {
        if !RunningSource(ids[i]) {
          assert Configured(destinations, id, k);
          return false, "source unavailable: " + ids[i];
        }
      }
      return true, "";
    }

    /** Only this subscription may have changed. */
    twostate predicate OnlyAt(id: string)
      reads this`subscriptions
    {
      && subscriptions.Keys == old(subscriptions).Keys
      && (forall k :: k in subscriptions && k != id ==> subscriptions[k] == old(subscriptions)[k])
    }

    /** Stops the consumer that is held, if there is one. */
    method StopHeld(id: string)
      requires Valid() && Settled() && id in subscriptions
      modifies this`streams, this`sourceStates, this`latched, this`raised, this`clock, this`subscriptions,
               this`instances, store
      ensures Valid() && SettledBut(id) && OnlyAt(id) && old(latched) <= latched && old(clock) <= clock
      ensures OnlyBlocks() && StoreKept()
      ensures var was := old(subscriptions)[id];
              subscriptions[id] == if was.consumer.Some? then was.(consumer := None, view := StatePausing) else was
      ensures forall c :: 0 <= c < |instances| && instances[c].destination == id ==> instances[c].stopped
    {
      if subscriptions[id].consumer.Some? {
        Write(id, subscriptions[id].(view := StatePausing));
        StopConsumer(id);
      }
    }

    /** rest: stop the consumer, then settle as paused or blocked, which applies the revision. */
    method Rest(id: string, row: Row, reason: string)
      requires Valid() && Settled() && id in subscriptions && Alternates(row)
      modifies this`streams, this`sourceStates, this`latched, this`raised, this`clock, this`subscriptions,
               this`instances, store
      ensures Valid() && Settled() && OnlyAt(id) && old(latched) <= latched && old(clock) <= clock
      ensures OnlyBlocks() && StoreKept()
      ensures subscriptions[id] == old(subscriptions)[id].(
                consumer := None, revision := row.revision,
                view := if row.desired.Paused? then StatePaused else StateBlocked,
                error := if row.desired.Paused? then "" else reason)
      ensures forall c :: 0 <= c < |instances| && instances[c].destination == id ==> instances[c].stopped
    {
      StopHeld(id);
      var (view, error) := RestingView(row.desired, reason);
      Write(id, subscriptions[id].(view := view, error := error, revision := row.revision));
      assert SettledAt(id);
    }

    /** Creates a consumer for a subscription that has none, unless the factory fails. */
    method StartConsumer(id: string, refused: bool) returns (ok: bool)
      requires Valid() && SettledBut(id) && id in subscriptions && subscriptions[id].consumer == None
      requires forall c :: 0 <= c < |instances| && instances[c].destination == id ==> instances[c].stopped
      modifies this`subscriptions, this`instances
      ensures Valid() && Settled() && OnlyAt(id) && (ok <==> subscriptions[id].consumer.Some?) && (ok <==> !refused)
      ensures subscriptions[id].view == if ok then StateStarting else StateBlocked
      ensures subscriptions[id].error == if ok then "" else "Kafka consumer unavailable"
      ensures subscriptions[id].revision == old(subscriptions)[id].revision
      ensures subscriptions[id].desired == old(subscriptions)[id].desired
    {
      if refused {
        Write(id, subscriptions[id].(view := StateBlocked, error := "Kafka consumer unavailable"));
      } else {
        CreateInstance(id);
      }
      assert SettledAt(id);
      return !refused;
    }

    /** ensureConsumer: keeps a live consumer, replaces a finished one after it has stopped. */
    method EnsureConsumer(id: string, c: Consumers) returns (ok: bool)
      requires Valid() && Settled() && id in subscriptions
      modifies this`streams, this`sourceStates, this`latched, this`raised, this`clock, this`subscriptions,
               this`instances, store
      ensures Valid() && Settled() && OnlyAt(id) && old(latched) <= latched && old(clock) <= clock
      ensures OnlyBlocks() && StoreKept()
      ensures ok <==> subscriptions[id].consumer.Some?
      ensures var kept := old(subscriptions)[id].consumer.Some? && id !in c.finished;
              (ok <==> kept || id !in c.refused) && (kept ==> subscriptions == old(subscriptions))
      ensures !ok ==> subscriptions[id].view == StateBlocked && subscriptions[id].error == "Kafka consumer unavailable"
      ensures subscriptions[id].revision == old(subscriptions)[id].revision
      ensures subscriptions[id].desired == old(subscriptions)[id].desired
    {
      if subscriptions[id].consumer.Some? {
        if id !in c.finished { return true; }
        StopConsumer(id);
      }
      ok := StartConsumer(id, id in c.refused);
    }

    /** markProgress: only a ready consumer applies the revision. */
    method MarkProgress(id: string, row: Row, ready: bool)
      requires Valid() && Settled() && id in subscriptions && subscriptions[id].consumer.Some?
      requires Alternates(row) && row.desired.Running?
      modifies this`subscriptions
      ensures Valid() && Settled() && OnlyAt(id)
      ensures subscriptions[id] == if ready
                then old(subscriptions)[id].(view := StateRunning, error := "", revision := row.revision)
                else old(subscriptions)[id].(view := StateStarting)
    {
      Write(id, if ready then subscriptions[id].(view := StateRunning, error := "", revision := row.revision)
                else subscriptions[id].(view := StateStarting));
      assert SettledAt(id);
    }

    /** What a pass has done about one row. */
    predicate Followed(id: string, row: Row)
      reads this`subscriptions
    {
      id in subscriptions ==> DoneAs(subscriptions[id], row)
    }

    /** How a running request ends, once all its sources run. */
    predicate Runs(id: string, c: Consumers)
      requires id in subscriptions
      reads this`subscriptions
    {
      var s := subscriptions[id];
      if s.consumer.Some? then s.view == if id in c.ready then StateRunning else StateStarting
      else id in c.refused && s.view.StateBlocked? && s.error == "Kafka consumer unavailable"
    }

    /** The running half of reconcileSubscription. */
    method Consume(id: string, row: Row, c: Consumers)
      requires Valid() && Settled() && id in subscriptions && Alternates(row) && row.desired.Running?
      requires subscriptions[id].desired == Some(Running)
      modifies this`streams, this`sourceStates, this`latched, this`raised, this`clock, this`subscriptions,
               this`instances, store
      ensures Valid() && Settled() && OnlyAt(id) && old(latched) <= latched && old(clock) <= clock
      ensures OnlyBlocks() && StoreKept()
      ensures Followed(id, row) && Consumed(old(subscriptions)[id], subscriptions[id], row) && Runs(id, c)
    {
      var ok := EnsureConsumer(id, c);
      if ok { MarkProgress(id, row, id in c.ready); }
    }

    /** Records what is desired, and finds out whether the destination may run. */
    method NoteDesired(id: string, row: Row) returns (ready: bool, reason: string)
      requires Valid() && Settled() && id in subscriptions
      modifies this`subscriptions
      ensures Valid() && Settled() && (ready <==> AllRunning(id))
      ensures subscriptions == old(subscriptions)[id := old(subscriptions)[id].(desired := Some(row.desired))]
    {
      Write(id, subscriptions[id].(desired := Some(row.desired)));
      assert SettledAt(id);
      ready, reason := DestinationReady(id);
    }

    /** Rests or consumes, as was decided. */
    method Settle(id: string, row: Row, c: Consumers, ready: bool, reason: string, ghost was: Subscription)
      requires Valid() && Settled() && id in subscriptions && Alternates(row)
      requires subscriptions[id] == was.(desired := Some(row.desired)) && (ready <==> AllRunning(id))
      modifies this`streams, this`sourceStates, this`latched, this`raised, this`clock, this`subscriptions,
               this`instances, store
      ensures Valid() && Settled() && OnlyAt(id) && old(latched) <= latched && old(clock) <= clock
      ensures OnlyBlocks() && StoreKept() && Followed(id, row)
      ensures IsPass(was, subscriptions[id], row)
      ensures row.desired.Running? && ready ==> Runs(id, c)
      ensures row.desired.Running? && !ready ==>
                var s := subscriptions[id];
                !AllRunning(id) && s.consumer == None && s.view.StateBlocked? && s.error == reason
    {
      if row.desired.Paused? || !ready {
        Rest(id, row, reason);
        RestIsPass(old(subscriptions)[id], subscriptions[id], row, reason);
      } else {
        Consume(id, row, c);
        ConsumeIsPass(old(subscriptions)[id], subscriptions[id], row);
      }
      SamePicture(was, old(subscriptions)[id], subscriptions[id], row);
    }

    /** A request to run is followed while all sources run, and only then; otherwise it rests blocked. */
    twostate predicate RunsAsAllowed(id: string, c: Consumers)
      requires id in subscriptions
      reads this`sourceStates, this`subscriptions
    {
      || (Runs(id, c) && old(AllRunning(id)))
      || (!AllRunning(id) && subscriptions[id].consumer == None && subscriptions[id].view.StateBlocked?)
    }

    /**
     * One subscription one step toward its desired state. What happens between recording the desired
     * state and looking at the sources touches no subscription, so the caller lets it happen before.
     */
    method ReconcileSubscription(id: string, row: Row, c: Consumers)
      requires Valid() && Settled() && Alternates(row)
      modifies this`streams, this`sourceStates, this`latched, this`raised, this`clock, this`subscriptions,
               this`instances, store
      ensures Valid() && Settled() && OnlyAt(id) && old(latched) <= latched && old(clock) <= clock
      ensures OnlyBlocks() && StoreKept() && Followed(id, row)
      ensures id in subscriptions ==> IsPass(old(subscriptions)[id], subscriptions[id], row)
      ensures id in subscriptions && row.desired.Running? ==> RunsAsAllowed(id, c)
    {
      if id !in subscriptions { return; }
      var ready, reason := NoteDesired(id, row);
      Settle(id, row, c, ready, reason, old(subscriptions)[id]);
    }

    // ----- a whole pass

    /** Rows as the store lists them: each subscription once, each row as the database would have it. */
    predicate Listed(rows: seq<DesiredRow>) {
      && (forall i :: 0 <= i < |rows| ==> Alternates(rows[i].row))
      && (forall i, j :: 0 <= i < j < |rows| ==> rows[i].id != rows[j].id)
    }

    /** The rows tell of this subscription, no older than the given revision. */
    predicate Tells(rows: seq<DesiredRow>, id: string, revision: nat) {
      exists i :: 0 <= i < |rows| && rows[i].id == id && revision <= rows[i].row.revision
    }

    method ListSubscriptions() returns (rows: seq<DesiredRow>)
      requires store.Valid()
      ensures Listed(rows)
      ensures forall i :: 0 <= i < |rows| ==>
                rows[i].id in store.subscriptions && rows[i].row == store.subscriptions[rows[i].id]
      ensures forall id :: id in store.subscriptions ==> Tells(rows, id, store.subscriptions[id].revision)
    {
      rows := [];
      var pending := store.subscriptions.Keys;
      while pending != {}
        invariant pending <= store.subscriptions.Keys && Listed(rows)
        invariant forall i :: 0 <= i < |rows| ==>
                    && rows[i].id in store.subscriptions && rows[i].id !in pending
                    && rows[i].row == store.subscriptions[rows[i].id]
        invariant forall id :: id in store.subscriptions ==>
                  id in pending || exists i :: 0 <= i < |rows| && rows[i].id == id
      {
        var id :| id in pending;
        ghost var before := rows;
        rows := rows + [DesiredRow(id, store.subscriptions[id])];
        pending := pending - {id};
        assert rows[|before|].id == id;
        assert forall i :: 0 <= i < |before| ==> rows[i] == before[i];
      }
    }

    /** Every row is one that was stored, by now or before. */
    predicate Stored(rows: seq<DesiredRow>)
      reads store
    {
      forall i :: 0 <= i < |rows| ==>
        rows[i].id in store.subscriptions && rows[i].row.revision <= store.subscriptions[rows[i].id].revision
    }

    method RenewLease(renewal: Renewal)
      requires Valid()
      modifies this`streams, this`sourceStates, this`latched, this`raised, this`clock, store
      ensures Valid() && old(latched) <= latched && old(clock) <= clock
      ensures RowsGrow() && forall id :: Same((workerID, id), old(store.observations), store.observations)
      ensures if renewal.Lost? then OwnLease() else LeaseIs(old(clock) + LEASE_TTL)
    {
      if !renewal.Lost? { var _ := store.RenewLease(workerID, LEASE_TTL, clock); }
      Interfere();
    }

    method ReadRows(read: bool) returns (rows: seq<DesiredRow>)
      requires Valid()
      modifies this`streams, this`sourceStates, this`latched, this`raised, this`clock, store
      ensures Valid() && old(latched) <= latched && old(clock) <= clock
      ensures StoreKept() && Listed(rows) && Stored(rows)
      ensures read ==> forall id :: id in old(store.subscriptions) ==>
                Tells(rows, id, old(store.subscriptions)[id].revision)
    {
      rows := [];
      if read { rows := ListSubscriptions(); }
      Interfere();
    }

    method RenewAndRead(a: Answers) returns (rows: seq<DesiredRow>)
      requires Valid()
      modifies this`streams, this`sourceStates, this`latched, this`raised, this`clock, store
      ensures Valid() && old(latched) <= latched && old(clock) <= clock
      ensures RowsGrow() && forall id :: Same((workerID, id), old(store.observations), store.observations)
      ensures if a.renewal.Lost? then OwnLease() else LeaseIs(old(clock) + LEASE_TTL)
      ensures Listed(rows) && Stored(rows)
      ensures a.read ==> forall id :: id in old(store.subscriptions) ==>
                Tells(rows, id, old(store.subscriptions)[id].revision)
    {
      RenewLease(a.renewal);
      ghost var before := store.subscriptions;
      rows := ReadRows(a.read);
      forall id | a.read && id in old(store.subscriptions)
        ensures Tells(rows, id, old(store.subscriptions)[id].revision)
      {
        assert Tells(rows, id, before[id].revision);
      }
    }

    /** Renews the lease, reads the rows and pings Kafka; whatever fails closes the fence at once. */
    method RefreshDependencies(a: Answers) returns (rows: seq<DesiredRow>, healthy: bool)
      requires Valid()
      modifies this`streams, this`sourceStates, this`latched, this`raised, this`clock, this`control, this`kafka,
               this`leaseUntil, store
      ensures Valid() && old(latched) <= latched && old(clock) <= clock
      ensures RowsGrow() && forall id :: Same((workerID, id), old(store.observations), store.observations)
      ensures if a.renewal.Lost? then OwnLease() else LeaseIs(old(clock) + LEASE_TTL)
      ensures healthy <==> Healthy(a)
      ensures control <==> a.renewal.Confirmed? && a.read
      ensures kafka <==> a.pinged
      ensures leaseUntil == if a.renewal.Confirmed? then clock + LEASE_TTL else old(leaseUntil)
      ensures Listed(rows) && Stored(rows)
      ensures a.read ==> forall id :: id in old(store.subscriptions) ==>
                Tells(rows, id, old(store.subscriptions)[id].revision)
    {
      rows := RenewAndRead(a);
      Stamp(a);
      healthy := control && kafka;
    }

    /** The fence is opened or closed under the lock, once all answers are in. */
    method Stamp(a: Answers)
      requires Valid()
      modifies this`control, this`kafka, this`leaseUntil
      ensures Valid() && (control <==> a.renewal.Confirmed? && a.read) && (kafka <==> a.pinged)
      ensures leaseUntil == if a.renewal.Confirmed? then clock + LEASE_TTL else old(leaseUntil)
    {
      control, kafka := a.renewal.Confirmed? && a.read, a.pinged;
      if a.renewal.Confirmed? { leaseUntil := clock + LEASE_TTL; }
    }

    /** stopAll: every consumer is stopped, and the subscriptions that had one are blocked. */
    method StopAll()
      requires Valid()
      modifies this`streams, this`sourceStates, this`latched, this`raised, this`clock, this`subscriptions,
               this`instances, store
      ensures Valid() && Quiet() && old(latched) <= latched && old(clock) <= clock && StoreKept()
      ensures subscriptions.Keys == old(subscriptions).Keys
      ensures forall id :: id in subscriptions ==> subscriptions[id] == StoppedOf(old(subscriptions)[id])
    {
      Interfere();
      instances := seq(|instances|, c requires 0 <= c < |instances| reads this => instances[c].(stopped := true));
      subscriptions := map id | id in subscriptions :: StoppedOf(subscriptions[id]);
    }

    method Degrade()
      requires Valid() && Settled()
      modifies this`streams, this`sourceStates, this`latched, this`raised, this`clock, this`status,
               this`subscriptions, this`instances, store
      ensures Valid() && Settled() && Quiet() && status == Degraded && old(latched) <= latched
      ensures old(clock) <= clock && StoreKept()
      ensures subscriptions.Keys == old(subscriptions).Keys
      ensures forall id :: id in subscriptions ==> subscriptions[id].revision == old(subscriptions)[id].revision
    {
      status := Degraded;
      StopAll();
    }

    // ----- the sources of a pass

    /**
     * A source runs as store and monitor have just said, unless a block of it is on its way; one whose
     * stored row was blocked when it was inspected is blocked here too.
     */
    ghost predicate Judged(id: string, a: Answers)
      reads this`sourceStates, this`streams, this`floor
    {
      var seen := SeenOf(a, id);
      var runs := seen.reached && seen.answer.state.SourceRunning?;
      && (RunningSource(id) ==> Local(id).blocked != "" || runs)
      && (runs && id in floor && Local(id).blocked == "" ==> RunningSource(id))
      && (seen.reached && Barred(id) ==> Local(id).blocked != "")
    }

    ghost predicate AllJudged(a: Answers)
      reads this`sourceStates, this`streams, this`floor
    {
      forall s :: s in sources ==> Judged(s, a)
    }

    method JudgeSource(id: string, a: Answers)
      requires Valid()
      modifies this`streams, this`sourceStates, this`latched, this`raised, this`clock, this`floor, store
      ensures Valid() && old(clock) <= clock && old(latched) <= latched && StoreKept() && FloorRises()
      ensures Judged(id, a) && forall k :: old(Judged(k, a)) ==> Judged(k, a)
    {
      InspectSource(id, SeenOf(a, id));
      forall k | k != id && old(Judged(k, a))
        ensures Judged(k, a)
      {
        assert (k in floor <==> k in old(floor)) && (k in floor ==> floor[k] == old(floor)[k]);
      }
    }

    method InspectSources(a: Answers)
      requires Valid()
      modifies this`streams, this`sourceStates, this`latched, this`raised, this`clock, this`floor, store
      ensures Valid() && old(latched) <= latched && old(clock) <= clock && StoreKept() && FloorRises()
      ensures AllJudged(a)
    {
      for i := 0 to |sources|
        invariant Valid() && old(latched) <= latched && old(clock) <= clock && StoreKept() && FloorRises()
        invariant forall j :: 0 <= j < i ==> Judged(sources[j], a)
      {
        JudgeSource(sources[i], a);
      }
    }

    // ----- the subscriptions of a pass

    /** Sources that run now ran before. */
    predicate RunsWithin(ran: set<string>)
      reads this`sourceStates
    {
      forall s :: s in sourceStates && sourceStates[s].state.SourceRunning? ==> s in ran
    }

    /** What a pass has done about one row, when these sources ran. */
    ghost predicate Treated(d: DesiredRow, c: Consumers, ran: set<string>)
      reads this`sourceStates, this`subscriptions
    {
      && Followed(d.id, d.row)
      && (d.id in subscriptions && d.row.desired.Running? ==>
            || (Runs(d.id, c) && forall s :: Feeds(s, d.id) ==> s in ran)
            || (!AllRunning(d.id) && subscriptions[d.id].consumer == None && subscriptions[d.id].view.StateBlocked?))
    }

    /** Takes every subscription one step; a later row does not undo what an earlier one did. */
    method FollowRows(rows: seq<DesiredRow>, c: Consumers, ghost ran: set<string>)
      requires Valid() && Settled() && Listed(rows) && RunsWithin(ran)
      modifies this`streams, this`sourceStates, this`latched, this`raised, this`clock, this`subscriptions,
               this`instances, store
      ensures Valid() && Settled() && old(latched) <= latched && old(clock) <= clock && OnlyBlocks() && StoreKept()
      ensures forall i :: 0 <= i < |rows| ==> Treated(rows[i], c, ran)
    {
      for i := 0 to |rows|
        invariant Valid() && Settled() && old(latched) <= latched && old(clock) <= clock && OnlyBlocks() && StoreKept()
        invariant RunsWithin(ran) && forall j :: 0 <= j < i ==> Treated(rows[j], c, ran)
      {
        FollowRow(rows, i, c, ran);
      }
    }

    method FollowRow(rows: seq<DesiredRow>, i: nat, c: Consumers, ghost ran: set<string>)
      requires Valid() && Settled() && Listed(rows) && i < |rows| && RunsWithin(ran)
      modifies this`streams, this`sourceStates, this`latched, this`raised, this`clock, this`subscriptions,
               this`instances, store
      ensures Valid() && Settled() && old(latched) <= latched && old(clock) <= clock && OnlyBlocks() && StoreKept()
      ensures RunsWithin(ran) && Treated(rows[i], c, ran)
      ensures forall j :: 0 <= j < |rows| && j != i && old(Treated(rows[j], c, ran)) ==> Treated(rows[j], c, ran)
    {
      WaitTurn(rows, c, ran);
      TakeStep(rows, i, c, ran);
    }

    /** What happens before the next row is taken undoes nothing that was done about the others. */
    method WaitTurn(rows: seq<DesiredRow>, c: Consumers, ghost ran: set<string>)
      requires Valid() && Settled() && RunsWithin(ran)
      modifies this`streams, this`sourceStates, this`latched, this`raised, this`clock, store
      ensures Valid() && old(latched) <= latched && old(clock) <= clock && OnlyBlocks() && StoreKept()
      ensures RunsWithin(ran)
      ensures forall j :: 0 <= j < |rows| && old(Treated(rows[j], c, ran)) ==> Treated(rows[j], c, ran)
    {
      Interfere();
    }

    method TakeStep(rows: seq<DesiredRow>, i: nat, c: Consumers, ghost ran: set<string>)
      requires Valid() && Settled() && Listed(rows) && i < |rows| && RunsWithin(ran)
      modifies this`streams, this`sourceStates, this`latched, this`raised, this`clock, this`subscriptions,
               this`instances, store
      ensures Valid() && Settled() && old(latched) <= latched && old(clock) <= clock && OnlyBlocks() && StoreKept()
      ensures RunsWithin(ran) && Treated(rows[i], c, ran)
      ensures forall j :: 0 <= j < |rows| && j != i && old(Treated(rows[j], c, ran)) ==> Treated(rows[j], c, ran)
    {
      ReconcileSubscription(rows[i].id, rows[i].row, c);
    }

    // ----- the observations of a pass

    /** This worker's row is the present revision and state, unless a newer revision was there before. */
    predicate Reported(id: string, was: map<(string, string), Observation>, now: map<(string, string), Observation>)
      requires id in subscriptions
      reads this`subscriptions
    {
      var s, key := subscriptions[id], (workerID, id);
      key in now && now[key] == Upsert(was, key, Observation(s.revision, ViewName(s.view)))[key]
    }

    lemma ViewNamed(view: View)
      ensures !Blank(ViewName(view))
    {
      assert !Space(ViewName(view)[0]);
    }

    /** One observation, or the failure to reach the store. */
    method Observe(id: string, reached: bool)
      requires Valid() && id in subscriptions && subscriptions[id].revision > 0
      modifies this`streams, this`sourceStates, this`latched, this`raised, this`clock, store
      ensures Valid() && old(latched) <= latched && old(clock) <= clock && OnlyBlocks() && RowsGrow() && OwnLease()
      ensures reached ==> Reported(id, old(store.observations), store.observations)
      ensures forall k :: k != id ==> Same((workerID, k), old(store.observations), store.observations)
    {
      Interfere();
      if reached {
        ViewNamed(subscriptions[id].view);
        var _ := store.ObserveSubscription(workerID, id, subscriptions[id].revision, ViewName(subscriptions[id].view));
      }
    }

    method ObserveApplied(id: string, lost: set<string>) returns (ok: bool)
      requires Valid() && id in subscriptions
      modifies this`streams, this`sourceStates, this`latched, this`raised, this`clock, store
      ensures Valid() && old(latched) <= latched && old(clock) <= clock && OnlyBlocks() && RowsGrow() && OwnLease()
      ensures ok <==> !(Applied(id) && id in lost)
      ensures ok && Applied(id) ==> Reported(id, old(store.observations), store.observations)
      ensures forall k :: k != id ==> Same((workerID, k), old(store.observations), store.observations)
    {
      if subscriptions[id].revision == 0 { return true; }
      Observe(id, id !in lost);
      return id !in lost;
    }

    predicate Applied(id: string)
      reads this`subscriptions
    {
      id in subscriptions && subscriptions[id].revision > 0
    }

    /** reportObservations: one store call for each applied revision, up to the first failure. */
    method ReportObservations(lost: set<string>) returns (ok: bool)
      requires Valid()
      modifies this`streams, this`sourceStates, this`latched, this`raised, this`clock, store
      ensures Valid() && old(latched) <= latched && old(clock) <= clock && OnlyBlocks() && RowsGrow() && OwnLease()
      ensures ok <==> forall id :: Applied(id) ==> id !in lost
      ensures ok ==> forall id :: Applied(id) ==> Reported(id, old(store.observations), store.observations)
    {
      var pending := subscriptions.Keys;
      while pending != {}
        invariant Valid() && old(latched) <= latched && old(clock) <= clock && OnlyBlocks() && RowsGrow() && OwnLease()
        invariant pending <= subscriptions.Keys
        invariant forall id :: id in pending ==> Same((workerID, id), old(store.observations), store.observations)
        invariant forall id :: id !in pending && Applied(id) ==>
                    id !in lost && Reported(id, old(store.observations), store.observations)
      {
        var id :| id in pending;
        pending := pending - {id};
        ok := ObserveApplied(id, lost);
        if !ok { return false; }
      }
      return true;
    }

    /** Every source runs, and every subscription is running or paused. */
    ghost predicate AllWell()
      reads this`sourceStates, this`subscriptions
    {
      && (forall id :: id in sourceStates ==> sourceStates[id].state == SourceRunning)
      && (forall id :: id in subscriptions ==> subscriptions[id].view in {StateRunning, StatePaused})
    }

    predicate NeedsAttention()
      reads this`sourceStates, this`subscriptions
    {
      || (exists id :: id in sourceStates && !sourceStates[id].state.SourceRunning?)
      || (exists id :: id in subscriptions
            && !subscriptions[id].view.StateRunning? && !subscriptions[id].view.StatePaused?)
    }

    // ----- a whole pass

    /**
     * How a running request stands after a pass: its consumer was kept or created because all its
     * sources ran, or none could be created, or it rests blocked because some source does not run.
     */
    ghost predicate StandsAsSeen(id: string, a: Answers)
      requires id in subscriptions
      reads this`sourceStates, this`subscriptions, this`streams
    {
      || (Runs(id, a.consumers) && forall s :: Feeds(s, id) && s in sources ==>
            Local(s).blocked != "" || (SeenOf(a, s).reached && SeenOf(a, s).answer.state.SourceRunning?))
      || (!AllRunning(id) && subscriptions[id].consumer == None && subscriptions[id].view.StateBlocked?)
    }

    /** The subscription is as a row asks that was stored at this revision, or at one stored since. */
    ghost predicate AsAsked(id: string, revision: nat, a: Answers)
      reads this`sourceStates, this`subscriptions, this`streams, store`subscriptions
    {
      exists row: Row ::
        && Alternates(row) && revision <= row.revision && Followed(id, row)
        && id in store.subscriptions && row.revision <= store.subscriptions[id].revision
        && (id in subscriptions && row.desired.Running? ==> StandsAsSeen(id, a))
    }

    /** Rows that were stored, are followed and stand as was seen leave their subscriptions as asked. */
    lemma AllAsAsked(rows: seq<DesiredRow>, a: Answers)
      requires Listed(rows) && Stored(rows)
      requires forall i :: 0 <= i < |rows| ==> Followed(rows[i].id, rows[i].row)
      requires forall i :: 0 <= i < |rows| && rows[i].id in subscriptions && rows[i].row.desired.Running? ==>
                 StandsAsSeen(rows[i].id, a)
      ensures forall id: string, revision: nat :: Tells(rows, id, revision) ==> AsAsked(id, revision, a)
    {
      forall id: string, revision: nat | Tells(rows, id, revision)
        ensures AsAsked(id, revision, a)
      {
        var i :| 0 <= i < |rows| && rows[i].id == id && revision <= rows[i].row.revision;
        assert Alternates(rows[i].row) && Followed(id, rows[i].row);
      }
    }

    /** Takes every subscription one step, after the sources have been judged. */
    method MoveTowardDesired(rows: seq<DesiredRow>, a: Answers)
      requires Valid() && Settled() && Listed(rows) && Stored(rows)
      requires AllJudged(a)
      modifies this`streams, this`sourceStates, this`latched, this`raised, this`clock, this`subscriptions,
               this`instances, store
      ensures Valid() && Settled() && old(latched) <= latched && old(clock) <= clock && StoreKept()
      ensures AllJudged(a)
      ensures forall id: string, revision: nat :: Tells(rows, id, revision) ==> AsAsked(id, revision, a)
    {
      ghost var ran := set s | s in sourceStates && sourceStates[s].state.SourceRunning?;
      FollowRows(rows, a.consumers, ran);
      forall i | 0 <= i < |rows| && rows[i].id in subscriptions && rows[i].row.desired.Running?
        ensures StandsAsSeen(rows[i].id, a)
      {
        assert Treated(rows[i], a.consumers, ran);
        assert forall s :: s in ran && s in sources ==> old(Judged(s, a)) && old(RunningSource(s));
      }
      AllAsAsked(rows, a);
    }

    /** Reporting, and what happens meanwhile, changes nothing about what was judged and asked. */
    method Report(a: Answers) returns (ok: bool)
      requires Valid() && Settled() && AllJudged(a)
      modifies this`streams, this`sourceStates, this`latched, this`raised, this`clock, store
      ensures Valid() && old(latched) <= latched && old(clock) <= clock && RowsGrow() && OwnLease() && AllJudged(a)
      ensures ok <==> !LosesReport(a.lost)
      ensures ok ==> forall id :: Applied(id) ==> Reported(id, old(store.observations), store.observations)
      ensures forall id: string, revision: nat :: old(AsAsked(id, revision, a)) ==> AsAsked(id, revision, a)
    {
      ok := ReportObservations(a.lost);
      forall id: string, revision: nat | old(AsAsked(id, revision, a))
        ensures AsAsked(id, revision, a)
      {
        var row: Row :|
          && Alternates(row) && revision <= row.revision && old(Followed(id, row))
          && id in old(store.subscriptions) && row.revision <= old(store.subscriptions)[id].revision
          && (id in subscriptions && row.desired.Running? ==> old(StandsAsSeen(id, a)));
        assert Followed(id, row);
      }
    }

    /** Whether some applied revision is lost on its way to the store. */
    predicate LosesReport(lost: set<string>)
      reads this`subscriptions
    {
      exists id :: id in lost && Applied(id)
    }

    method PublishStatus()
      modifies this`status
      ensures status == if AllWell() then Ready else Degraded
    {
      status := if NeedsAttention() then Degraded else Ready;
    }

    /** The second half of a healthy pass: report, and publish the overall status. */
    method Publish(a: Answers) returns (end: PassEnd)
      requires Valid() && Settled() && AllJudged(a)
      modifies this`streams, this`sourceStates, this`latched, this`raised, this`clock, this`control, this`status,
               this`subscriptions, this`instances, store
      ensures Valid() && Settled() && old(latched) <= latched && old(clock) <= clock && RowsGrow() && OwnLease()
      ensures end == if LosesReport(a.lost) then DependencyFailed else Completed
      ensures end == DependencyFailed ==> Quiet() && status == Degraded && !control
      ensures end == Completed ==>
                && status == (if AllWell() then Ready else Degraded)
                && control == old(control)
                && AllJudged(a)
                && (forall id: string, revision: nat :: old(AsAsked(id, revision, a)) ==> AsAsked(id, revision, a))
                && (forall id :: Applied(id) ==> Reported(id, old(store.observations), store.observations))
    {
      var reported := Report(a);
      if !reported {
        control := false;
        Degrade();
        return DependencyFailed;
      }
      PublishStatus();
      return Completed;
    }

    /** The first half of a pass: the dependencies, and if they are healthy the sources. */
    method LookAround(a: Answers) returns (rows: seq<DesiredRow>, healthy: bool)
      requires Valid() && Settled()
      modifies this`streams, this`sourceStates, this`latched, this`raised, this`clock, this`control, this`kafka,
               this`leaseUntil, this`floor, store
      ensures Valid() && Settled() && FloorRises() && old(latched) <= latched && old(clock) <= clock
      ensures RowsGrow() && forall id :: Same((workerID, id), old(store.observations), store.observations)
      ensures if a.renewal.Lost? then OwnLease() else LeaseIs(old(clock) + LEASE_TTL)
      ensures healthy <==> Healthy(a)
      ensures control <==> a.renewal.Confirmed? && a.read
      ensures kafka <==> a.pinged
      ensures if a.renewal.Confirmed? then old(clock) + LEASE_TTL <= leaseUntil <= clock + LEASE_TTL
              else leaseUntil == old(leaseUntil)
      ensures Listed(rows) && Stored(rows)
      ensures healthy ==> forall id :: id in old(store.subscriptions) ==>
                Tells(rows, id, old(store.subscriptions)[id].revision)
      ensures healthy ==> AllJudged(a)
    {
      rows, healthy := RefreshDependencies(a);
      if healthy { InspectSources(a); }
    }

    /**
     * One pass. It completes exactly when the renewal is confirmed, the rows are read, Kafka
     * answers, the context lives on and no applied revision is lost on its way to the store. If a
     * dependency fails, nothing may be dispatched and no consumer is left. A pass that completes
     * leaves each subscription as its stored row, or one stored since, asks; and after every pass
     * each subscription is settled and no latched source has reopened.
     */
    method Reconcile(a: Answers) returns (end: PassEnd)
      requires Valid() && Settled()
      modifies this, store
      ensures Valid() && Settled() && old(latched) <= latched && old(clock) <= clock && RowsGrow() && BlocksStay()
      ensures history == old(history) + [Made(a, end)]
      ensures end == ContextEnded <==> Healthy(a) && a.ended
      ensures end == DependencyFailed <==> !Healthy(a) || (!a.ended && LosesReport(a.lost))
      ensures end != Completed ==> Quiet() && status == Degraded
      ensures end == DependencyFailed ==> forall id :: !Allowed(id)
      ensures end == Completed && clock < old(clock) + 30 ==> forall id :: RunningSource(id) ==> Allowed(id)
      ensures forall id :: Allowed(id) ==> control && kafka && clock < leaseUntil && RunningSource(id)
      ensures if a.renewal.Lost? then OwnLease() else LeaseIs(old(clock) + 30)
      ensures if a.renewal.Confirmed? then old(clock) + 30 <= leaseUntil <= clock + 30
              else leaseUntil == old(leaseUntil)
      ensures end == Completed ==>
                && control && kafka && status == (if AllWell() then Ready else Degraded)
                && AllJudged(a) && (forall id :: id in old(store.streams) ==> id in floor)
                && (forall id :: old(StoredBlock(id)) ==> Barred(id))
                && (forall id :: id in old(store.subscriptions) ==>
                      AsAsked(id, old(store.subscriptions)[id].revision, a))
                && (forall id :: Applied(id) ==> Reported(id, old(store.observations), store.observations))
    {
      ResetFloor();
      end := Pass(a);
      history := history + [Made(a, end)];
    }

    /**
     * A pass that began after paused was stored holds no consumer when it ends, whether it completes or
     * not, unless a newer revision has been stored meanwhile.
     */
    method PausedPass(id: string, a: Answers) returns (end: PassEnd)
      requires Valid() && Settled() && id in store.subscriptions && store.subscriptions[id].desired.Paused?
      modifies this, store
      ensures Valid() && Settled() && id in store.subscriptions
      ensures id in subscriptions && store.subscriptions[id].revision == old(store.subscriptions)[id].revision ==>
                && subscriptions[id].consumer == None
                && (end == Completed ==> subscriptions[id].view.StatePaused?
                                         && subscriptions[id].revision == store.subscriptions[id].revision)
    {
      ghost var row := store.subscriptions[id];
      assert Alternates(row);
      end := Reconcile(a);
      if end == Completed && id in subscriptions && store.subscriptions[id].revision == row.revision {
        assert AsAsked(id, row.revision, a);
        var asked: Row :| Alternates(asked) && row.revision <= asked.revision && Followed(id, asked)
                          && asked.revision <= store.subscriptions[id].revision;
        RevisionDecidesState(asked, row);
      }
    }

    /** The pass, over registrations that stay as they are under the floor. */
    method Pass(a: Answers) returns (end: PassEnd)
      requires Valid() && Settled()
      modifies this`streams, this`sourceStates, this`latched, this`raised, this`clock, this`control, this`kafka,
               this`leaseUntil, this`floor, this`status, this`subscriptions, this`instances, store
      ensures Valid() && Settled() && old(latched) <= latched && old(clock) <= clock && RowsGrow() && FloorRises()
      ensures end == ContextEnded <==> Healthy(a) && a.ended
      ensures end == DependencyFailed <==> !Healthy(a) || (!a.ended && LosesReport(a.lost))
      ensures end != Completed ==> Quiet() && status == Degraded
      ensures end == DependencyFailed ==> !control || !kafka
      ensures if a.renewal.Lost? then OwnLease() else LeaseIs(old(clock) + LEASE_TTL)
      ensures if a.renewal.Confirmed? then old(clock) + LEASE_TTL <= leaseUntil <= clock + LEASE_TTL
              else leaseUntil == old(leaseUntil)
      ensures end == Completed ==>
                && control && kafka && status == (if AllWell() then Ready else Degraded) && AllJudged(a)
                && (forall id :: id in old(store.subscriptions) ==>
                      AsAsked(id, old(store.subscriptions)[id].revision, a))
                && (forall id :: Applied(id) ==> Reported(id, old(store.observations), store.observations))
    {
      var rows, healthy := LookAround(a);
      end := Finish(rows, healthy, a, old(store.subscriptions), old(store.observations));
    }

    /** What follows the look around: the rest of the pass, or its end. */
    method Finish(rows: seq<DesiredRow>, healthy: bool, a: Answers, ghost asked: map<string, Row>,
                  ghost was: map<(string, string), Observation>) returns (end: PassEnd)
      requires Valid() && Settled() && Listed(rows) && Stored(rows)
      requires healthy ==> AllJudged(a) && forall id :: id in asked ==> Tells(rows, id, asked[id].revision)
      requires forall id :: Same((workerID, id), was, store.observations)
      modifies this`streams, this`sourceStates, this`latched, this`raised, this`clock, this`control, this`status,
               this`subscriptions, this`instances, store
      ensures Valid() && Settled() && old(latched) <= latched && old(clock) <= clock && RowsGrow() && OwnLease()
      ensures end == if !healthy || (!a.ended && LosesReport(a.lost)) then DependencyFailed
                     else if a.ended then ContextEnded else Completed
      ensures end != Completed ==> Quiet() && status == Degraded
      ensures healthy && end == DependencyFailed ==> !control
      ensures end != DependencyFailed || !healthy ==> control == old(control)
      ensures end == Completed ==>
                && status == (if AllWell() then Ready else Degraded) && AllJudged(a)
                && (forall id :: id in asked ==> AsAsked(id, asked[id].revision, a))
                && (forall id :: Applied(id) ==> Reported(id, was, store.observations))
    {
      if !healthy || a.ended {
        Degrade();
        return if healthy then ContextEnded else DependencyFailed;
      }
      end := Conclude(rows, a, asked, was);
    }

    /** The second half of a healthy pass; asked and was are what the store held when it began. */
    method Conclude(rows: seq<DesiredRow>, a: Answers, ghost asked: map<string, Row>,
                    ghost was: map<(string, string), Observation>) returns (end: PassEnd)
      requires Valid() && Settled() && Listed(rows) && Stored(rows) && AllJudged(a)
      requires forall id :: id in asked ==> Tells(rows, id, asked[id].revision)
      requires forall id :: Same((workerID, id), was, store.observations)
      modifies this`streams, this`sourceStates, this`latched, this`raised, this`clock, this`control, this`status,
               this`subscriptions, this`instances, store
      ensures Valid() && Settled() && old(latched) <= latched && old(clock) <= clock && RowsGrow() && OwnLease()
      ensures end == if LosesReport(a.lost) then DependencyFailed else Completed
      ensures end == DependencyFailed ==> Quiet() && status == Degraded && !control
      ensures end == Completed ==>
                && status == (if AllWell() then Ready else Degraded)
                && control == old(control) && AllJudged(a)
                && (forall id :: id in asked ==> AsAsked(id, asked[id].revision, a))
                && (forall id :: Applied(id) ==> Reported(id, was, store.observations))
    {
      MoveTowardDesired(rows, a);
      ghost var before := store.observations;
      end := Publish(a);
      forall id | end == Completed && Applied(id)
        ensures Reported(id, was, store.observations)
      {
        assert Reported(id, before, store.observations) && Same((workerID, id), was, before);
      }
    }

    /**
     * The control loop: passes until the context ends, then no consumer is left, and no lease unless the
     * store is out of reach. A renewal that took effect in some pass is still there in that case.
     */
    method Start(passes: seq<Answers>, released: bool)
      requires Valid() && Settled()
      modifies this, store
      ensures Valid() && Quiet() && old(latched) <= latched && RowsGrow() && BlocksStay()
      ensures PassesMade(old(history), passes)
      ensures if released then workerID !in store.leases && forall id :: (workerID, id) !in store.observations
              else Renews(passes) ==> LeasedFrom(old(clock))
    {
      RunPasses(passes);
      End(released);
    }

    /** The end of the loop: consumers first, then the lease. */
    method End(released: bool)
      requires Valid()
      modifies this`streams, this`sourceStates, this`latched, this`raised, this`clock, this`floor,
               this`subscriptions, this`instances, store
      ensures Valid() && Quiet() && old(latched) <= latched && RowsGrow() && BlocksStay()
      ensures if released then workerID !in store.leases && forall id :: (workerID, id) !in store.observations
              else OwnLease()
    {
      ResetFloor();
      StopAll();
      if released { Release(); }
    }

    /** Lease and observations of this worker go; what is desired and what is blocked stays. */
    method Release()
      requires Valid()
      modifies store
      ensures Valid() && RowsGrow()
      ensures workerID !in store.leases && forall id :: (workerID, id) !in store.observations
    {
      var _ := store.ReleaseLease(workerID);
    }

    /** This worker's stored lease is one that was renewed at this time or later. */
    predicate LeasedFrom(time: int)
      reads store
    {
      workerID in store.leases && time + LEASE_TTL <= store.leases[workerID]
    }

    /** Exactly these passes were made after the earlier ones, and ended as what they met asks. */
    ghost predicate PassesMade(before: seq<Made>, passes: seq<Answers>)
      reads this`history
    {
      && |history| == |before| + |passes| && history[..|before|] == before
      && forall i :: 0 <= i < |passes| ==>
           var made := history[|before| + i];
           && made.answers == passes[i]
           && (made.end == ContextEnded <==> Healthy(passes[i]) && passes[i].ended)
           && (!Healthy(passes[i]) ==> made.end == DependencyFailed)
    }

    method RunPasses(passes: seq<Answers>)
      requires Valid() && Settled()
      modifies this, store
      ensures Valid() && Settled() && old(latched) <= latched && RowsGrow() && BlocksStay() && old(clock) <= clock
      ensures PassesMade(old(history), passes)
      ensures Renews(passes) ==> LeasedFrom(old(clock))
    {
      for i := 0 to |passes|
        invariant Valid() && Settled() && old(latched) <= latched && RowsGrow() && BlocksStay() && old(clock) <= clock
        invariant PassesMade(old(history), passes[..i])
        invariant Renews(passes[..i]) ==> LeasedFrom(old(clock))
      {
        var _ := Reconcile(passes[i]);
      }
      assert passes[..|passes|] == passes;
    }

    // ----- change requests

    /**
     * What the rest of the process does between two polls of Change: passes, in which only
     * settled subscriptions are visible at their boundaries, and everything Interfere allows.
     */
    method OtherPasses()
      requires Valid() && Settled()
      modifies this, store
      ensures Valid() && Settled() && old(latched) <= latched && RowsGrow() && FloorRises()
      ensures old(clock) <= clock && old(leaseUntil) <= leaseUntil
    {
      var passes :| 0 <= passes;
      for i := 0 to passes
        invariant Valid() && Settled() && old(latched) <= latched && RowsGrow() && FloorRises()
        invariant old(clock) <= clock && old(leaseUntil) <= leaseUntil
      {
        var a: Answers := *;
        var _ := Pass(a);
      }
      Interfere();
    }

    /** The desired state is reached here: with a consumer that runs, or without any. */
    ghost predicate Shows(id: string, state: Desired)
      requires id in subscriptions
      reads this`subscriptions, this`instances
    {
      var s := subscriptions[id];
      if state.Running? then
        s.view == StateRunning && s.consumer.Some?
        && s.consumer.value < |instances| && !instances[s.consumer.value].stopped
      else s.view == StatePaused && s.consumer == None
    }

    /** By the store, every worker with an unexpired lease has applied the revision, or a later one, in this state. */
    ghost predicate EveryoneAgrees(id: string, state: Desired, revision: nat)
      reads this`clock, store
    {
      AllAgree(store.leases, ObservationsOf(store.observations, id), clock, revision,
               if state.Running? then "running" else "paused")
    }

    /** This worker has applied the revision, or a later one, in this state, and so has everyone by the store. */
    ghost predicate Converged(id: string, state: Desired, revision: nat)
      reads this`subscriptions, this`instances, this`clock, store
    {
      && id in subscriptions && subscriptions[id].revision >= revision
      && Shows(id, state) && subscriptions[id].desired == Some(state)
      && EveryoneAgrees(id, state, revision)
    }

    /** A later revision was applied here, and something else is desired by now. */
    ghost predicate Superseded(id: string, state: Desired, revision: nat)
      reads this`subscriptions
    {
      id in subscriptions && subscriptions[id].revision > revision && subscriptions[id].desired != Some(state)
    }

    /** One poll of Change, if it decides. */
    method Poll(id: string, state: Desired, revision: nat) returns (r: Option<Result<nat, string>>)
      requires Valid() && Settled()
      ensures r == None ==> !Converged(id, state, revision) && !Superseded(id, state, revision)
      ensures r.Some? && r.value.Ok? ==> r.value.value == revision && Converged(id, state, revision)
      ensures r.Some? && r.value.Err? ==>
                if r.value.error == "control request superseded" then Superseded(id, state, revision)
                else r.value.error == "worker observation unavailable" && revision == 0
    {
      if id !in subscriptions { return None; }
      var s := subscriptions[id];
      ViewNamesExactly(s.view);
      assert SettledAt(id);
      if s.revision >= revision && ViewName(s.view) == Name(state) && s.desired == Some(state) {
        var observed := store.SubscriptionObserved(id, revision, Name(state), clock);
        assert !Blank(Name(state)) by { assert !Space(Name(state)[0]); }
        if observed == None { return Some(Err("worker observation unavailable")); }
        if observed.value { return Some(Ok(revision)); }
      }
      if s.revision > revision && s.desired != Some(state) { return Some(Err("control request superseded")); }
      return None;
    }

    /** Polls until every live worker has observed the revision, it is superseded, or the context ends. */
    method AwaitConvergence(id: string, state: Desired, revision: nat, patience: nat) returns (r: Result<nat, string>)
      requires Valid() && Settled()
      modifies this, store
      ensures Valid() && Settled() && RowsGrow() && FloorRises()
      ensures r.Ok? ==> r.value == revision && Converged(id, state, revision)
      ensures r == Err("control request superseded") ==> Superseded(id, state, revision)
      ensures r == Err("context ended") ==> !Converged(id, state, revision) && !Superseded(id, state, revision)
      ensures revision > 0 ==> r.Ok? || r == Err("control request superseded") || r == Err("context ended")
    {
      var left := patience;
      while true
        invariant Valid() && Settled() && RowsGrow() && FloorRises()
        decreases left
      {
        OtherPasses();
        var decided := Poll(id, state, revision);
        if decided.Some? { return decided.value; }
        if left == 0 { return Err("context ended"); }
        left := left - 1;
      }
    }

    lemma NameParses(state: Desired)
      ensures Parse(Name(state)) == Some(state)
    {
    }

    /**
     * Change stores the desired state, and succeeds only when the store confirms that every live
     * worker has observed the very revision this call stored. What cannot be stored changes nothing.
     */
    method Change(id: string, state: Desired, reached: bool, patience: nat) returns (r: Result<nat, string>)
      requires Valid() && Settled()
      modifies this, store
      ensures Valid() && Settled() && RowsGrow() && BlocksStay()
      ensures id !in old(subscriptions) ==> r == Err("subscription not found") && unchanged(this) && unchanged(store)
      ensures id in old(subscriptions) && !(reached && id in old(store.subscriptions)) ==>
                && r == Err("control store unavailable") && unchanged(this)
                && store.subscriptions == old(store.subscriptions)
      ensures id in old(subscriptions) && reached && id in old(store.subscriptions) ==>
                var asked := Desire(old(store.subscriptions)[id], state);
                && id in store.subscriptions && asked.revision <= store.subscriptions[id].revision
                && (store.subscriptions[id].revision == asked.revision ==> store.subscriptions[id].desired == state)
                && (r.Ok? ==> r.value == asked.revision && Converged(id, state, r.value))
                && (r == Err("control request superseded") ==> Superseded(id, state, asked.revision))
                && (r == Err("context ended") ==>
                      !Converged(id, state, asked.revision) && !Superseded(id, state, asked.revision))
                && (r.Ok? || r == Err("control request superseded") || r == Err("context ended"))
    {
      if id !in subscriptions { return Err("subscription not found"); }
      if !reached { return Err("control store unavailable"); }
      var row := Ask(id, state);
      if row == None { return Err("control store unavailable"); }
      r := AwaitRow(id, state, row.value, patience);
    }

    /** Waits for the row that was stored; a row of this revision can ask for nothing else. */
    method AwaitRow(id: string, state: Desired, row: Row, patience: nat) returns (r: Result<nat, string>)
      requires Valid() && Settled() && row.desired == state && row.revision > 0
      requires id in store.subscriptions && store.subscriptions[id] == row
      modifies this, store
      ensures Valid() && Settled() && RowsGrow() && FloorRises()
      ensures id in store.subscriptions && row.revision <= store.subscriptions[id].revision
      ensures store.subscriptions[id].revision == row.revision ==> store.subscriptions[id].desired == state
      ensures r.Ok? ==> r.value == row.revision && Converged(id, state, row.revision)
      ensures r == Err("control request superseded") ==> Superseded(id, state, row.revision)
      ensures r == Err("context ended") ==>
                !Converged(id, state, row.revision) && !Superseded(id, state, row.revision)
      ensures r.Ok? || r == Err("control request superseded") || r == Err("context ended")
    {
      assert store.Valid();
      r := AwaitConvergence(id, state, row.revision, patience);
      assert store.Valid();
      if store.subscriptions[id].revision == row.revision { RevisionDecidesState(store.subscriptions[id], row); }
    }

    /** Stores the desired state. */
    method Ask(id: string, state: Desired) returns (row: Option<Row>)
      requires Valid()
      modifies this`floor, store`subscriptions
      ensures Valid() && floor == (if row.Some? then store.streams else old(floor))
      ensures row == if id in old(store.subscriptions) then Some(Desire(old(store.subscriptions)[id], state)) else None
      ensures store.subscriptions == if row.Some? then old(store.subscriptions)[id := row.value]
                else old(store.subscriptions)
    {
      NameParses(state);
      row := store.SetDesired(id, Name(state));
      if row.Some? { ResetFloor(); }
    }
  }

  /**
   * New: refuses an invalid generation, registers every destination's subscription, and fails if
   * one has no ID or the store is out of reach.
   */
  method New(store: Store, sources: seq<string>, destinations: seq<Destination>, workerID: string, clock: int,
             generation: int, reached: bool) returns (r: Result<Service, string>)
    requires store.Valid() && workerID != ""
    modifies store
    ensures store.Valid()
    ensures r.Ok? <==> generation >= 1 && reached && forall d :: d in destinations ==> d.id != ""
    ensures r.Ok? ==>
              fresh(r.value) && r.value.store == store && r.value.Valid() && r.value.Settled() && r.value.Quiet()
    ensures r.Ok? ==> r.value.closed == (set id | id in store.streams && store.streams[id].blocked != "")
    ensures store.streams == old(store.streams)
    ensures r.Ok? ==> forall d :: d in destinations ==> d.id in store.subscriptions && d.id in r.value.subscriptions
    ensures forall id :: id in old(store.subscriptions) ==>
              id in store.subscriptions && store.subscriptions[id] == old(store.subscriptions)[id]
    ensures r.Err? ==> store.subscriptions == old(store.subscriptions)
  {
    if generation < 1 { return Err("generation must be positive"); }
    var ids := seq(|destinations|, i requires 0 <= i < |destinations| => destinations[i].id);
    forall d | d in destinations
      ensures d.id in ids
    {
      var i :| 0 <= i < |destinations| && destinations[i] == d;
      assert ids[i] == d.id;
    }
    assert forall i :: 0 <= i < |ids| ==> ids[i] == destinations[i].id && destinations[i] in destinations;
    if !reached { return Err("subscriptions could not be initialized"); }
    var ok := store.EnsureSubscriptions(ids);
    if !ok { return Err("subscriptions could not be initialized"); }
    var service := new Service(store, sources, destinations, workerID, clock);
    return Ok(service);
  }

  /** Blocked in the store, and neither running nor dispatched here. */
  predicate Shut(service: Service, id: string)
    reads service, service.store
  {
    service.StoredBlock(id) && !service.RunningSource(id) && !service.Allowed(id)
  }

  /** A new service never runs a source whose row is blocked, however many passes it makes. */
  method RestartBlocked(store: Store, sources: seq<string>, destinations: seq<Destination>,
                        workerID: string, clock: int, generation: int, reached: bool)
    returns (r: Result<Service, string>)
    requires store.Valid() && workerID != ""
    modifies store
    ensures r.Ok? ==> r.value.Valid() && r.value.Settled() && r.value.store == store
    ensures r.Ok? ==> forall id :: id in old(store.barred) ==> Shut(r.value, id)
  {
    r := New(store, sources, destinations, workerID, clock, generation, reached);
    if r.Ok? {
      r.value.OtherPasses();
    }
  }

  /**
   * A stored block survives everything: whether Block has just stored it or it was stored before, passes,
   * the end of the service, other workers while it is down, a restart, and passes after. No source so
   * blocked runs or dispatches in the new service, nor does one that was blocked while the old one ran.
   */
  method BlockSurvivesRestart(service: Service, id: string, reason: string, passes: seq<Answers>, released: bool,
                              workerID: string, clock: int, generation: int, reached: bool)
    returns (stored: bool, ghost blocked: set<string>, r: Result<Service, string>)
    requires service.Valid() && service.Settled() && workerID != ""
    modifies service, service.store
    ensures reached && !Blank(reason) && id in old(service.store.streams) ==> stored
    ensures old(service.store.barred) + (if stored then {id} else {}) <= blocked
    ensures r.Ok? ==> r.value.Valid() && r.value.Settled() && r.value.store == service.store
    ensures r.Ok? ==> forall k :: k in blocked ==> Shut(r.value, k)
  {
    stored := service.Block(id, reason, reached);
    service.Start(passes, released);
    service.OtherStoreCall();
    blocked := service.store.barred;
    r := RestartBlocked(service.store, service.sources, service.destinations, workerID, clock, generation, reached);
  }

  /** One HTTP attempt: when the gate was checked, and the deadline its context was given. */
  datatype BoundedAttempt = BoundedAttempt(checkedAt: int, deadline: int)

  /**
   * LeaseTransport.RoundTrip: refused unless the source is allowed at the check, and bounded
   * by the lease deadline read afterwards, which no pass in between can have brought forward.
   */
  method RoundTrip(gate: Service, source: string) returns (r: Option<BoundedAttempt>)
    requires gate.Valid() && gate.Settled()
    modifies gate, gate.store
    ensures gate.Valid() && gate.Settled()
    ensures r.Some? <==> old(gate.control && gate.kafka && gate.clock < gate.leaseUntil && gate.RunningSource(source))
    ensures r.Some? ==>
              && r.value.checkedAt == old(gate.clock) < old(gate.leaseUntil) <= r.value.deadline
              && r.value.deadline == gate.leaseUntil <= gate.clock + 30
  {
    if !gate.Allowed(source) { return None; }
    var checkedAt := gate.clock;
    gate.OtherPasses();
    return Some(BoundedAttempt(checkedAt, gate.leaseUntil));
  }

  /** findDestination, or rather what it is asked for. */
  function SourcesOf(destinations: seq<Destination>, id: string): seq<string> {
    if destinations == [] then []
    else if destinations[0].id == id then destinations[0].sources
    else SourcesOf(destinations[1..], id)
  }

  /** The configured destination of this ID; should there be several, the first. */
  ghost predicate Configured(destinations: seq<Destination>, id: string, k: int) {
    0 <= k < |destinations| && destinations[k].id == id && forall j :: 0 <= j < k ==> destinations[j].id != id
  }

  /** An unknown ID has no sources; a configured one has those of its destination. */
  lemma {:induction false} WhereConfigured(destinations: seq<Destination>, id: string) returns (k: int)
    ensures if Configured(destinations, id, k) then SourcesOf(destinations, id) == destinations[k].sources
            else SourcesOf(destinations, id) == [] && forall j :: 0 <= j < |destinations| ==> destinations[j].id != id
    ensures forall j :: Configured(destinations, id, j) ==> j == k
  {
    if destinations == [] {
      k := 0;
    } else if destinations[0].id == id {
      k := 0;
    } else {
      k := WhereConfigured(destinations[1..], id);
      k := k + 1;
      assert forall j :: 0 < j < |destinations| ==> destinations[j] == destinations[1..][j - 1];
      if !Configured(destinations[1..], id, k - 1) { k := 0; }
    }
  }
}
