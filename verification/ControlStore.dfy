/**
 * The control store of one scope: subscriptions, leases, observations, partition markers,
 * skip rows and stream registrations, as tables changed in place by the conditions of the
 * SQL in internal/adapters/controlpg. A call that fails changes nothing here; calls that
 * never reach the store are the business of the machines that use it.
 */
module ControlStore {
  import opened Basics
  import opened Streams
  import opened Strings

  datatype Desired = Running | Paused

  datatype Row = Row(desired: Desired, revision: nat)

  datatype Observation = Observation(revision: nat, state: string)

  datatype Position = Position(destination: string, topic: string, partition: nat, offset: nat)

  function Name(desired: Desired): string {
    match desired
    case Running => "running"
    case Paused => "paused"
  }

  function Parse(state: string): Option<Desired> {
    if state == "running" then Some(Running) else if state == "paused" then Some(Paused) else None
  }

  // ----- what the statements do to a table

  /** The UPDATE of SetDesired: the revision moves only with a real change. */
  function Desire(row: Row, desired: Desired): (r: Row)
    ensures r.desired == desired
    ensures row.revision <= r.revision <= row.revision + 1
    ensures r.revision == row.revision <==> row.desired == desired
  {
    Row(desired, row.revision + if row.desired == desired then 0 else 1)
  }

  /** Running at odd revisions, paused at even ones. */
  predicate Alternates(row: Row) {
    row.revision > 0 && (row.desired.Running? <==> row.revision % 2 == 1)
  }

  /** A subscription starts running at revision 1 and alternates from there on. */
  lemma DesireAlternates(row: Row, desired: Desired)
    requires Alternates(row)
    ensures Alternates(Desire(row, desired)) && Alternates(Row(Running, 1))
  {
  }

  /** Two rows of one subscription with the same revision ask for the same state. */
  lemma RevisionDecidesState(a: Row, b: Row)
    requires Alternates(a) && Alternates(b) && a.revision == b.revision
    ensures a == b
  {
  }

  /** The upsert of ObserveSubscription: an older revision never replaces a newer one. */
  function Upsert<K>(table: map<K, Observation>, key: K, seen: Observation): (t: map<K, Observation>)
    ensures key in t && t.Keys == table.Keys + {key}
    ensures forall k :: k in table && k != key ==> t[k] == table[k]
    ensures t[key] == seen || (key in table && t[key] == table[key] && seen.revision < table[key].revision)
    ensures key in table ==> table[key].revision <= t[key].revision
  {
    if key in table && seen.revision < table[key].revision then table else table[key := seen]
  }

  predicate Unexpired<W>(leases: map<W, int>, now: int, w: W) { w in leases && leases[w] > now }

  /** The query of SubscriptionObserved, worker by worker. */
  predicate Agrees<W>(observed: map<W, Observation>, w: W, revision: nat, state: string) {
    w in observed && observed[w].revision >= revision && observed[w].state == state
  }

  ghost predicate AllAgree<W(!new)>(leases: map<W, int>, observed: map<W, Observation>, now: int,
                                    revision: nat, state: string)
  {
    && (exists w :: Unexpired(leases, now, w))
    && (forall w :: Unexpired(leases, now, w) ==> Agrees(observed, w, revision, state))
  }

  function ObservationsOf(table: map<(string, string), Observation>, destination: string): (m: map<string, Observation>)
    ensures forall w :: w in m <==> (w, destination) in table
    ensures forall w :: w in m ==> m[w] == table[(w, destination)]
  {
    map k | k in table && k.1 == destination :: k.0 := table[k]
  }

  class Store {
    var subscriptions: map<string, Row>
    var leases: map<string, int>
    var observations: map<(string, string), Observation>
    var started: set<(string, string, nat)>
    var skips: set<Position>
    var streams: map<string, Registration>
    /** The sources whose rows are blocked. No statement unblocks one, so this never shrinks. */
    ghost var barred: set<string>

    constructor ()
      ensures Valid() && subscriptions == map[] && leases == map[] && observations == map[]
      ensures started == {} && skips == {} && streams == map[] && barred == {}
    {
      subscriptions, leases, observations, started, skips, streams := map[], map[], map[], {}, {}, map[];
      barred := {};
    }

    ghost predicate Valid()
      reads this
    {
      && (forall id :: id in subscriptions ==> Alternates(subscriptions[id]))
      && (forall k :: k in observations ==> observations[k].revision > 0)
      && (forall id :: id in barred <==> id in streams && streams[id].blocked != "")
    }

    /** Inserts each missing ID at running, revision 1; one empty ID rolls the whole call back. */
    method EnsureSubscriptions(ids: seq<string>) returns (ok: bool)
      requires Valid()
      modifies this`subscriptions
      ensures Valid() && (ok <==> "" !in ids)
      ensures !ok ==> subscriptions == old(subscriptions)
      ensures ok ==> subscriptions.Keys == old(subscriptions).Keys + set id | id in ids
      ensures forall id :: id in old(subscriptions) ==>
                id in subscriptions && subscriptions[id] == old(subscriptions)[id]
      ensures forall id :: id in subscriptions && id !in old(subscriptions) ==> subscriptions[id] == Row(Running, 1)
    {
      var table := subscriptions;
      for i := 0 to |ids|
        invariant "" !in ids[..i]
        invariant table.Keys == subscriptions.Keys + set id | id in ids[..i]
        invariant forall id :: id in subscriptions ==> id in table && table[id] == subscriptions[id]
        invariant forall id :: id in table && id !in subscriptions ==> table[id] == Row(Running, 1)
      {
        if ids[i] == "" { return false; }
        assert ids[..i + 1] == ids[..i] + [ids[i]];
        if ids[i] !in table { table := table[ids[i] := Row(Running, 1)]; }
      }
      assert ids[..|ids|] == ids;
      subscriptions := table;
      return true;
    }

    /** The row as stored, or nothing for an unknown ID or a state that is not a desired state. */
    method SetDesired(id: string, state: string) returns (r: Option<Row>)
      requires Valid()
      modifies this`subscriptions
      ensures Valid() && (r.Some? <==> (state == "running" || state == "paused") && id in old(subscriptions))
      ensures r == None ==> subscriptions == old(subscriptions)
      ensures r.Some? ==> r.value == Desire(old(subscriptions)[id], if state == "running" then Running else Paused)
                          && subscriptions == old(subscriptions)[id := r.value]
    {
      var desired := Parse(state);
      if desired == None || id !in subscriptions { return None; }
      var row := Desire(subscriptions[id], desired.value);
      subscriptions := subscriptions[id := row];
      return Some(row);
    }

    method ObserveSubscription(worker: string, destination: string, revision: int, state: string) returns (ok: bool)
      requires Valid()
      modifies this`observations
      ensures Valid()
      ensures ok <==> worker != "" && destination != "" && revision > 0 && !Blank(state)
      ensures observations == if ok then Upsert(old(observations), (worker, destination), Observation(revision, state))
                              else old(observations)
    {
      if worker == "" || destination == "" || revision <= 0 || Blank(state) { return false; }
      observations := Upsert(observations, (worker, destination), Observation(revision, state));
      return true;
    }

    /** Whether every worker with an unexpired lease, of which there is one, has observed the state. */
    method SubscriptionObserved(destination: string, revision: int, state: string, now: int) returns (r: Option<bool>)
      requires Valid()
      ensures r.Some? <==> destination != "" && revision > 0 && !Blank(state)
      ensures r.Some? ==>
                (r.value <==> AllAgree(leases, ObservationsOf(observations, destination), now, revision, state))
    {
      if destination == "" || revision <= 0 || Blank(state) { return None; }
      var pending, any, all := leases.Keys, false, true;
      ghost var seen := ObservationsOf(observations, destination);
      while pending != {}
        invariant pending <= leases.Keys
        invariant any <==> exists w :: w in leases.Keys - pending && Unexpired(leases, now, w)
        invariant all <==>
                  forall w :: w in leases.Keys - pending && Unexpired(leases, now, w) ==>
                    Agrees(seen, w, revision, state)
      {
        var w :| w in pending;
        ghost var before := leases.Keys - pending;
        pending := pending - {w};
        assert leases.Keys - pending == before + {w};
        if leases[w] > now {
          any := true;
          assert Unexpired(leases, now, w);
          if (w, destination) !in observations || observations[(w, destination)].revision < revision ||
             observations[(w, destination)].state != state {
            all := false;
          }
        }
      }
      return Some(any && all);
    }

    method RenewLease(worker: string, ttl: int, now: int) returns (ok: bool)
      modifies this`leases
      ensures ok <==> worker != "" && ttl > 0
      ensures leases == if ok then old(leases)[worker := now + ttl] else old(leases)
    {
      if worker == "" || ttl <= 0 { return false; }
      leases := leases[worker := now + ttl];
      return true;
    }

    /** Removes the lease and all of the worker's observations together. */
    method ReleaseLease(worker: string) returns (ok: bool)
      requires Valid()
      modifies this`leases, this`observations
      ensures Valid() && (ok <==> worker != "")
      ensures leases == if ok then old(leases) - {worker} else old(leases)
      ensures forall k :: k in observations <==> k in old(observations) && !(ok && k.0 == worker)
      ensures forall k :: k in observations ==> observations[k] == old(observations)[k]
    {
      if worker == "" { return false; }
      observations := map k | k in observations && k.0 != worker :: observations[k];
      leases := leases - {worker};
      return true;
    }

    method PartitionStarted(destination: string, topic: string, partition: nat) returns (r: bool)
      ensures r <==> (destination, topic, partition) in started
    {
      return (destination, topic, partition) in started;
    }

    method MarkPartitionStarted(destination: string, topic: string, partition: nat) returns (ok: bool)
      modifies this`started
      ensures ok <==> destination != "" && topic != ""
      ensures started == if ok then old(started) + {(destination, topic, partition)} else old(started)
    {
      if destination == "" || topic == "" { return false; }
      started := started + {(destination, topic, partition)};
      return true;
    }

    method SaveSkip(at: Position) returns (ok: bool)
      modifies this`skips
      ensures ok <==> at.destination != "" && at.topic != ""
      ensures skips == if ok then old(skips) + {at} else old(skips)
    {
      if at.destination == "" || at.topic == "" { return false; }
      skips := skips + {at};
      return true;
    }

    method HasSkip(at: Position) returns (r: Option<bool>)
      ensures r == if at.destination != "" && at.topic != "" then Some(at in skips) else None
    {
      if at.destination == "" || at.topic == "" { return None; }
      return Some(at in skips);
    }

    /** Writes the registration once; afterwards only the same identity, names and topic are accepted. */
    method RegisterStream(id: string, r: Registration) returns (ok: bool)
      requires Valid()
      modifies this`streams, this`barred
      ensures Valid() && old(barred) <= barred <= old(barred) + {id}
      ensures ok <==> id != "" && (id in old(streams) ==> old(streams)[id].(blocked := r.blocked) == r)
      ensures streams == if ok && id !in old(streams) then old(streams)[id := r] else old(streams)
    {
      if id == "" { return false; }
      var table := if id in streams then streams else streams[id := r];
      var stored := table[id];
      if stored.identity != r.identity || stored.names != r.names || stored.topic != r.topic { return false; }
      if id !in streams && r.blocked != "" { barred := barred + {id}; }
      streams := table;
      return true;
    }

    /** Overwrites the stored reason of a registered stream; a blank reason is refused. */
    method BlockSource(id: string, reason: string) returns (ok: bool)
      requires Valid()
      modifies this`streams, this`barred
      ensures Valid() && barred == old(barred) + (if ok then {id} else {})
      ensures ok <==> !Blank(reason) && id in old(streams)
      ensures streams == if ok then old(streams)[id := old(streams)[id].(blocked := reason)] else old(streams)
    {
      if Blank(reason) || id !in streams { return false; }
      assert reason != "";
      streams := streams[id := streams[id].(blocked := reason)];
      barred := barred + {id};
      return true;
    }
  }
}
