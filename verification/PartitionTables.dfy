/**
 * The marker and the skip rows of the control store under the partition machine: whatever the
 * machine reads or writes of them is what the store's operations answer and do for that partition,
 * and the rows of every other partition stay as they are.
 */
module PartitionTables {
  import opened Basics
  import opened PartitionMachine
  import opened PartitionWorker
  import ControlStore

  datatype Key = Key(destination: string, topic: string, partition: nat)

  function At(k: Key, offset: nat): ControlStore.Position {
    ControlStore.Position(k.destination, k.topic, k.partition, offset)
  }

  function KeyOf(p: ControlStore.Position): Key { Key(p.destination, p.topic, p.partition) }

  /** The machine's skips and marker are the rows of this partition. */
  ghost predicate Mirrors(store: ControlStore.Store, k: Key, s: Shared)
    reads store
  {
    && (forall o: nat :: o in s.skips <==> At(k, o) in store.skips)
    && (s.started <==> (k.destination, k.topic, k.partition) in store.started)
  }

  /** Only rows of this partition differ. */
  twostate predicate OnlyHere(store: ControlStore.Store, k: Key)
    reads store
  {
    && (forall p :: p in store.skips && KeyOf(p) != k <==> p in old(store.skips) && KeyOf(p) != k)
    && (forall m :: m in store.started && m != (k.destination, k.topic, k.partition)
               <==> m in old(store.started) && m != (k.destination, k.topic, k.partition))
  }

  /** Which row a step writes. */
  datatype Write = Nothing | Skip(offset: nat) | Marker

  function WriteOf(s: State, step: Step): Write
    requires Enabled(s, step)
  {
    match step
    case Env(LandSkip(o)) => Skip(o)
    case Env(LandMark) => Marker
    case Init(_, Marked) => Marker
    case OnRecord(w, SkipStored) => Skip(s.workers[w].next)
    case _ => Nothing
  }

  lemma WritesExactly(s: State, step: Step)
    requires Enabled(s, step)
    ensures var t := Apply(s, step).shared;
            match WriteOf(s, step)
            case Nothing => t.skips == s.shared.skips && t.started == s.shared.started
            case Skip(o) => t.skips == s.shared.skips + {o} && t.started == s.shared.started
            case Marker => t.skips == s.shared.skips && t.started
  {
    match step
    case Around(w, change) => ChangeWritesNoRow(s.shared, s.workers[w], change);
    case Init(w, call) => InitWritesRow(s.shared, s.workers[w], call);
    case Commits(w, call) => CommitWritesNoRow(s.shared, w, s.workers[w], call);
    case OnRecord(w, call) => RecordWritesRow(s.shared, s.workers[w], call);
    case _ =>
  }

  lemma ChangeWritesNoRow(s: Shared, k: Worker, change: Change)
    requires ChangeEnabled(s, k, change)
    ensures var t := ApplyChange(s, k, change).shared; t.skips == s.skips && t.started == s.started
  {
  }

  lemma InitWritesRow(s: Shared, k: Worker, call: InitCall)
    requires InitEnabled(k, call)
    ensures var t := ApplyInit(s, k, call).shared; t.skips == s.skips && (t.started <==> s.started || call.Marked?)
  {
  }

  lemma CommitWritesNoRow(s: Shared, w: nat, k: Worker, call: CommitCall)
    requires CommitEnabled(s, w, k, call)
    ensures var t := ApplyCommit(s, w, k, call).shared; t.skips == s.skips && t.started == s.started
  {
  }

  lemma RecordWritesRow(s: Shared, k: Worker, call: RecordCall)
    requires RecordEnabled(k, call)
    ensures var t := ApplyRecord(s, k, call).shared;
            t.started == s.started && t.skips == s.skips + if call.SkipStored? then {k.next} else {}
  {
  }

  /** A step of the machine together with the store operation it stands for. */
  method Take(store: ControlStore.Store, p: Partition, k: Key, step: Step)
    requires p.Valid() && Enabled(p.state, step) && Mirrors(store, k, p.state.shared)
    requires k.destination != "" && k.topic != ""
    modifies p, store`skips, store`started
    ensures p.Valid() && p.state == Apply(old(p.state), step) && p.steps == old(p.steps) + [step]
    ensures Mirrors(store, k, p.state.shared) && OnlyHere(store, k)
  {
    WritesExactly(p.state, step);
    match WriteOf(p.state, step) {
      case Nothing =>
      case Skip(o) => var _ := store.SaveSkip(At(k, o));
      case Marker => var _ := store.MarkPartitionStarted(k.destination, k.topic, k.partition);
    }
    p.Do(step);
  }

  /** The skip lookup: the store is asked only below the horizon, and its answer decides. */
  method LookUpSkip(store: ControlStore.Store, p: Partition, k: Key, id: nat) returns (found: bool)
    requires p.Valid() && Enabled(p.state, OnRecord(id, LookedUp)) && Mirrors(store, k, p.state.shared)
    requires k.destination != "" && k.topic != ""
    modifies p
    ensures p.Valid() && Mirrors(store, k, p.state.shared) && id in p.state.workers
    ensures var w := old(p.state.workers[id]); found <==> w.next < w.horizon && At(k, w.next) in store.skips
    ensures p.state.workers[id] == old(p.state.workers[id]).(phase := if found then Commit else Filter)
  {
    found := false;
    var w := p.state.workers[id];
    if w.next < w.horizon {
      var answer := store.HasSkip(At(k, w.next));
      found := answer == Some(true);
    }
    p.Do(OnRecord(id, LookedUp));
  }

  /** The last read of initialize: the store's marker decides between blocking, a baseline and the marker. */
  method LookUpMarker(store: ControlStore.Store, p: Partition, k: Key, id: nat) returns (started: bool)
    requires p.Valid() && Enabled(p.state, Init(id, SeeMarker)) && Mirrors(store, k, p.state.shared)
    modifies p
    ensures p.Valid() && Mirrors(store, k, p.state.shared) && id in p.state.workers
    ensures started <==> (k.destination, k.topic, k.partition) in store.started
    ensures var k, r, j := old(p.state.workers[id]), old(p.state.workers[id]).phase, p.state.workers[id];
            r.read == None ==>
              if started || r.first != 0
              then j.phase.Done? && j.cancelled
                   && p.state.shared.blocks == old(p.state.shared.blocks) + {EstablishedLost}
              else j == k.(phase := Baseline(r.first, r.last)) && p.state.shared == old(p.state.shared)
    ensures var r := old(p.state.workers[id]).phase;
            r.read.Some? && r.first <= r.read.value <= r.last ==>
              p.state.workers[id].phase == Mark(r.read.value, r.first, r.last)
    ensures var r := old(p.state.workers[id]).phase;
            r.read.Some? && !(r.first <= r.read.value <= r.last) ==>
              p.state.workers[id].phase.Done? && p.state.shared.blocks == old(p.state.shared.blocks) + {OutsideHistory}
  {
    started := store.PartitionStarted(k.destination, k.topic, k.partition);
    WritesExactly(p.state, Init(id, SeeMarker));
    p.Do(Init(id, SeeMarker));
  }
}
