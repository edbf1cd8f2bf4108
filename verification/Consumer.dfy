/**
 * internal/adapters/kafka/consumer.go, the consumer around its partition workers: rebalance
 * callbacks, routing of fetched records, and shutdown. What a worker does with its partition is
 * PartitionMachine; here a worker is only its flags, the records routed to it, and whether its
 * goroutine has returned. The Kafka client runs callbacks one at a time.
 */
module Consumer {
  import opened Basics

  datatype Key = Key(topic: string, partition: int)

  class Worker {
    const key: Key
    var owned: bool
    var cancelled: bool
    var initialized: bool
    var finished: bool
    /** Offsets handed over through the batch channel. */
    var received: seq<nat>

    constructor (key: Key)
      ensures this.key == key && owned && !cancelled && !initialized && !finished && received == []
    {
      this.key := key;
      owned, cancelled, initialized, finished, received := true, false, false, false, [];
    }

    /** Clears ownership, then waits for the goroutine, whose context has ended, to return. */
    method AwaitDone()
      requires cancelled
      modifies this`owned, this`finished, this`initialized
      ensures !owned && finished && (old(initialized) ==> initialized)
    {
      var late: bool := *;
      owned, initialized, finished := false, initialized || late, true;
    }
  }

  datatype FetchError = FetchError(topic: string, lost: bool)

  /** Records of one partition; ended says that a context ends while the batch waits to be taken. */
  datatype Batch = Batch(key: Key, offsets: seq<nat>, ended: bool)

  datatype Poll = Poll(errors: seq<FetchError>, batches: seq<Batch>)

  /** A batch that was handed on, and the worker that took it, if one did. */
  datatype Routed = Routed(batch: Batch, to: Option<Worker>)

  /** The batches that were handed on, oldest first. */
  function BatchesOf(log: seq<Routed>): seq<Batch> { seq(|log|, i requires 0 <= i < |log| => log[i].batch) }

  lemma OneMore(log: seq<Routed>, r: Routed)
    ensures BatchesOf(log + [r]) == BatchesOf(log) + [r.batch]
  {
  }

  /** What a worker has taken, oldest first. */
  ghost function TakenBy(log: seq<Routed>, w: Worker): seq<nat> {
    if log == [] then []
    else
      var last := log[|log| - 1];
      TakenBy(log[..|log| - 1], w) + if last.to == Some(w) then last.batch.offsets else []
  }

  lemma {:induction false} TakenFromNone(log: seq<Routed>, w: Worker)
    requires forall i :: 0 <= i < |log| ==> log[i].to != Some(w)
    ensures TakenBy(log, w) == []
  {
    if log != [] { TakenFromNone(log[..|log| - 1], w); }
  }

  class Group {
    var joined: bool
    var cancelled: bool
    var workers: map<Key, Worker>
    /** Topics whose source was blocked, oldest first. */
    var blocked: seq<string>
    /** Every worker this consumer ever started. */
    ghost var started: set<Worker>
    /** What was handed on before the context ended. */
    ghost var routed: seq<Routed>

    /** A worker has received exactly what was handed on to it, and that was of its own partition. */
    ghost predicate Received()
      reads this, started
    {
      && (forall i :: 0 <= i < |routed| && routed[i].to.Some? ==>
            routed[i].to.value in started && routed[i].to.value.key == routed[i].batch.key)
      && (forall w :: w in started ==> w.received == TakenBy(routed, w))
    }

    /**
     * A worker is in the table under its own key, or it is over: its goroutine has returned and
     * it owns nothing.
     */
    ghost predicate Valid()
      reads this, started
    {
      && Received()
      && (forall k :: k in workers ==> workers[k] in started && workers[k].key == k)
      && (forall w :: w in started ==> InTable(w) || (w.finished && !w.owned && w.cancelled))
    }

    predicate InTable(w: Worker)
      reads this
    {
      w.key in workers && workers[w.key] == w
    }

    constructor ()
      ensures Valid() && !joined && !cancelled && workers == map[] && blocked == [] && started == {} && routed == []
    {
      joined, cancelled, workers, blocked, started, routed := false, false, map[], [], {}, [];
    }

    /** No partition ever has two running workers of one consumer. */
    lemma OneRunningWorker(v: Worker, w: Worker)
      requires Valid() && v in started && w in started && v.key == w.key
      requires v.owned || !v.finished
      requires w.owned || !w.finished
      ensures v == w
    {
    }

    method Ready() returns (r: bool)
      ensures r <==> joined && forall k :: k in workers ==> workers[k].initialized
    {
      if !joined { return false; }
      var left := workers.Keys;
      while left != {}
        invariant left <= workers.Keys
        invariant forall k :: k in workers && k !in left ==> workers[k].initialized
      {
        var k :| k in left;
        if !workers[k].initialized { return false; }
        left := left - {k};
      }
      return true;
    }

    predicate Starts(w: Worker)
      reads w
    {
      w.owned && !w.cancelled && !w.initialized
    }

    /** Starts a worker for this partition unless it has one. */
    method Adopt(k: Key)
      requires Valid()
      modifies this`workers, this`started
      ensures Valid() && k in workers && workers == old(workers)[k := workers[k]]
      ensures if k in old(workers) then workers == old(workers) && started == old(started)
              else fresh(workers[k]) && Starts(workers[k]) && started == old(started) + {workers[k]}
    {
      if k in workers { return; }
      var w := new Worker(k);
      TakenFromNone(routed, w);
      workers := workers[k := w];
      started := started + {w};
    }

    /** Starts a worker for every given partition that has none. */
    method OnAssigned(partitions: seq<Key>)
      requires Valid()
      modifies this`joined, this`workers, this`started
      ensures Valid() && joined
      ensures forall k :: k in workers <==> k in old(workers) || k in partitions
      ensures forall k :: k in old(workers) ==> workers[k] == old(workers)[k]
      ensures forall k :: k in workers && k !in old(workers) ==> fresh(workers[k]) && Starts(workers[k])
      ensures old(started) <= started && fresh(started - old(started))
    {
      joined := true;
      for i := 0 to |partitions|
        invariant Valid() && joined
        invariant forall k :: k in workers <==> k in old(workers) || k in partitions[..i]
        invariant forall k :: k in old(workers) ==> workers[k] == old(workers)[k]
        invariant forall k :: k in workers && k !in old(workers) ==> fresh(workers[k]) && Starts(workers[k])
        invariant old(started) <= started && fresh(started - old(started))
      {
        assert partitions[..i + 1] == partitions[..i] + [partitions[i]];
        Adopt(partitions[i]);
      }
      assert partitions[..|partitions|] == partitions;
    }

    predicate Removes(partitions: Option<set<Key>>, k: Key) { partitions == None || k in partitions.value }

    /** Cancels the workers of these partitions and takes them out of the table. */
    method TakeOut(partitions: Option<set<Key>>) returns (removed: seq<Worker>)
      requires Valid()
      modifies this`workers, started`cancelled
      ensures forall k :: k in workers <==> k in old(workers) && !Removes(partitions, k)
      ensures forall k :: k in workers ==> workers[k] == old(workers)[k]
      ensures forall w :: w in started && InTable(w) ==> unchanged(w)
      ensures forall w :: w in removed <==>
                w in started && old(InTable(w)) && Removes(partitions, w.key)
      ensures forall w :: w in removed ==> w.cancelled
      ensures forall w :: w in started && w !in removed ==> unchanged(w)
    {
      var left := workers.Keys;
      removed := [];
      while left != {}
        invariant left <= old(workers).Keys
        invariant forall k :: k in workers <==> k in old(workers) && (k in left || !Removes(partitions, k))
        invariant forall k :: k in workers ==> workers[k] == old(workers)[k]
        invariant forall w :: w in removed <==>
                    w in started && old(InTable(w)) && Removes(partitions, w.key) && w.key !in left
        invariant forall w :: w in removed ==> w.cancelled
        invariant forall w :: w in started && w !in removed ==> unchanged(w`cancelled)
      {
        var k :| k in left;
        left := left - {k};
        if Removes(partitions, k) {
          var w := workers[k];
          w.cancelled := true;
          removed := removed + [w];
          workers := workers - {k};
        }
      }
    }

    /** Ends the workers of these partitions: every one of them is over when this returns. */
    method StopWorkers(partitions: Option<set<Key>>)
      requires Valid()
      modifies this`workers, started`cancelled, started`owned, started`finished, started`initialized
      ensures Valid()
      ensures forall k :: k in workers <==> k in old(workers) && !Removes(partitions, k)
      ensures forall k :: k in workers ==> workers[k] == old(workers)[k]
      ensures forall w :: w in started && InTable(w) ==> unchanged(w)
    {
      var removed := TakeOut(partitions);
      ghost var table := workers;
      for i := 0 to |removed|
        invariant workers == table
        invariant forall w :: w in removed ==> w.cancelled
        invariant forall j :: 0 <= j < i ==> removed[j].finished && !removed[j].owned
        invariant forall w :: w in started && w !in removed ==> unchanged(w)
      {
        assert removed[i] in removed && removed[i] in started;
        removed[i].AwaitDone();
      }
    }

    method OnRevoked(partitions: set<Key>)
      requires Valid()
      modifies this`workers, started`cancelled, started`owned, started`finished, started`initialized
      ensures Valid()
      ensures forall k :: k in workers <==> k in old(workers) && k !in partitions
      ensures forall k :: k in workers ==> workers[k] == old(workers)[k] && unchanged(workers[k])
    {
      StopWorkers(Some(partitions));
    }

    /** Losing some partitions makes the whole consumer unready until the next assignment. */
    method OnLost(partitions: set<Key>)
      requires Valid()
      modifies this`joined, this`workers, started`cancelled, started`owned, started`finished, started`initialized
      ensures Valid() && !joined
      ensures forall k :: k in workers <==> k in old(workers) && k !in partitions
      ensures forall k :: k in workers ==> workers[k] == old(workers)[k] && unchanged(workers[k])
    {
      joined := false;
      StopWorkers(Some(partitions));
    }

    /** One goroutine of a worker gets on: it finishes its offset check, or fails and returns. */
    method Work(w: Worker)
      requires Valid() && w in started
      modifies w`initialized, w`finished, w`cancelled
      ensures Valid() && (old(w.initialized) ==> w.initialized) && (old(w.finished) ==> unchanged(w))
    {
      if !w.finished {
        var checked: bool, fails: bool := *, *;
        w.initialized := w.initialized || checked;
        if fails { w.cancelled, w.finished := true, true; }
      }
    }

    /** What can happen while Run polls: callbacks, the workers' own progress, and the end of the context. */
    method Meanwhile(ended: bool)
      requires Valid()
      modifies this`joined, this`workers, this`started, this`cancelled, started
      ensures Valid() && (cancelled <==> old(cancelled) || ended)
      ensures old(started) <= started && fresh(started - old(started))
    {
      var count :| 0 <= count;
      for i := 0 to count
        invariant Valid() && cancelled == old(cancelled)
        invariant old(started) <= started && fresh(started - old(started))
      {
        var pick: int, partitions: seq<Key> := *, *;
        if pick == 0 {
          OnAssigned(partitions);
        } else if pick == 1 {
          OnRevoked(set k | k in partitions);
        } else if pick == 2 {
          OnLost(set k | k in partitions);
        } else if pick == 3 && partitions != [] && partitions[0] in workers {
          Work(workers[partitions[0]]);
        }
      }
      cancelled := cancelled || ended;
    }

    predicate Takes(w: Worker, batch: Batch)
      reads this, w
    {
      batch.offsets != [] && !batch.ended && !cancelled && !w.cancelled && InTable(w) && w.key == batch.key
    }

    /** Hands a batch to the partition's running worker, unless a context ends while it waits. */
    method Route(batch: Batch)
      requires Valid()
      modifies this`routed, started`received
      ensures Valid()
      ensures |routed| == |old(routed)| + (if cancelled then 0 else 1) && old(routed) <= routed
      ensures !cancelled ==>
                var r := routed[|old(routed)|];
                r.batch == batch && forall w :: r.to == Some(w) <==> w in started && old(Takes(w, batch))
      ensures forall w :: w in started ==>
                w.received == old(w.received) + if old(Takes(w, batch)) then batch.offsets else []
    {
      if !cancelled { routed := routed + [Routed(batch, None)]; }
      if batch.offsets == [] || batch.key !in workers { return; }
      var w := workers[batch.key];
      if w.cancelled || cancelled { return; }
      if !batch.ended {
        w.received := w.received + batch.offsets;
        routed := old(routed) + [Routed(batch, Some(w))];
      }
    }

    /** The first error that loses history. */
    predicate FirstLost(errors: seq<FetchError>, i: int) {
      0 <= i < |errors| && errors[i].lost && forall j :: 0 <= j < i ==> !errors[j].lost
    }

    predicate LosesNone(errors: seq<FetchError>) { forall i :: 0 <= i < |errors| ==> !errors[i].lost }

    /** The first lost history among the errors of a poll blocks its topic's source; other errors are survived. */
    method SeeErrors(errors: seq<FetchError>) returns (stop: bool)
      requires Valid()
      modifies this`blocked, this`cancelled
      ensures Valid()
      ensures old(cancelled) ==> cancelled && blocked == old(blocked) && (stop <==> errors != [])
      ensures !old(cancelled) ==> (stop <==> !LosesNone(errors)) && (cancelled <==> stop)
      ensures !old(cancelled) && !stop ==> blocked == old(blocked)
      ensures !old(cancelled) ==> forall i :: FirstLost(errors, i) ==> blocked == old(blocked) + [errors[i].topic]
    {
      for i := 0 to |errors|
        invariant blocked == old(blocked) && cancelled == old(cancelled)
        invariant forall j :: 0 <= j < i ==> !errors[j].lost
        invariant cancelled ==> i == 0
      {
        if cancelled { return true; }
        if errors[i].lost {
          blocked := blocked + [errors[i].topic];
          cancelled := true;
          return true;
        }
      }
      return false;
    }

    /** All batches of these polls, in order. */
    function AllBatches(polls: seq<Poll>): seq<Batch> {
      if polls == [] then [] else AllBatches(polls[..|polls| - 1]) + polls[|polls| - 1].batches
    }

    /**
     * Polls and routes until history is lost, in which case exactly the source that lost it first is
     * blocked, or until the context ends from outside, while poll number until is awaited. The batches of
     * the n polls before that are handed on, all of them and in order. On return every worker ever started
     * is over, and none is in the table.
     */
    method Run(polls: seq<Poll>, until: nat) returns (ghost n: nat)
      requires Valid() && until <= |polls|
      modifies this, started
      ensures Valid() && workers == map[] && old(started) <= started && old(routed) <= routed
      ensures forall w :: w in started ==> w.finished && !w.owned && w.cancelled
      ensures n <= until && forall i :: 0 <= i < n ==> LosesNone(polls[i].errors)
      ensures BatchesOf(routed[|old(routed)|..]) == AllBatches(polls[..n])
      ensures cancelled <==> old(cancelled) || until < |polls| || n < until
      ensures if old(cancelled) then n == 0 else n < until ==> !LosesNone(polls[n].errors)
      ensures old(cancelled) || n == until ==> blocked == old(blocked)
      ensures !old(cancelled) && n < until ==>
                forall i :: FirstLost(polls[n].errors, i) ==> blocked == old(blocked) + [polls[n].errors[i].topic]
    {
      n := 0;
      for i := 0 to |polls|
        invariant Valid() && blocked == old(blocked) && (cancelled <==> old(cancelled) || until < i)
        invariant old(started) <= started && fresh(started - old(started))
        invariant old(cancelled) ==> i == 0
        invariant n == (if i <= until then i else until) && forall j :: 0 <= j < n ==> LosesNone(polls[j].errors)
        invariant old(routed) <= routed && BatchesOf(routed[|old(routed)|..]) == AllBatches(polls[..n])
      {
        if cancelled { break; }
        Meanwhile(i == until);
        var stop := SeeErrors(polls[i].errors);
        if stop { break; }
        RouteAll(polls[i].batches, old(|routed|));
        if i < until {
          assert polls[..i + 1][..i] == polls[..i];
          n := i + 1;
        }
      }
      StopWorkers(None);
      assert workers.Keys == {};
    }

    /** Hands on the batches of one poll; from is where the caller's part of the log begins. */
    method RouteAll(batches: seq<Batch>, ghost from: nat)
      requires Valid() && from <= |routed|
      modifies this`routed, started`received
      ensures Valid() && old(routed) <= routed
      ensures BatchesOf(routed[from..]) == old(BatchesOf(routed[from..])) + if cancelled then [] else batches
      ensures |routed| == |old(routed)| + if cancelled then 0 else |batches|
      ensures !cancelled ==> forall j, w :: 0 <= j < |batches| ==>
                (routed[|old(routed)| + j].to == Some(w) <==> w in started && Takes(w, batches[j]))
    {
      for j := 0 to |batches|
        invariant Valid() && old(routed) <= routed
        invariant BatchesOf(routed[from..]) == old(BatchesOf(routed[from..])) + if cancelled then [] else batches[..j]
        invariant |routed| == |old(routed)| + if cancelled then 0 else j
        invariant !cancelled ==> forall k, w :: 0 <= k < j ==>
                    (routed[|old(routed)| + k].to == Some(w) <==> w in started && Takes(w, batches[k]))
      {
        ghost var before := routed;
        Route(batches[j]);
        assert batches[..j + 1] == batches[..j] + [batches[j]];
        if cancelled {
          assert routed == before;
        } else {
          OneMore(before[from..], routed[|before|]);
          assert routed[from..] == before[from..] + [routed[|before|]];
        }
      }
      assert batches[..|batches|] == batches;
    }
  }
}
