/** internal/provision: the capture contract, the two health checks, and provisioning a source. */
module Provision {
  import opened Basics
  import opened Streams
  import opened Strings

  // ----- the capture contract (contract.go)

  datatype ColumnFacts = ColumnFacts(kind: PGType, notNull: bool)

  datatype TableFacts = TableFacts(present: bool, columns: map<string, ColumnFacts>, serialUniqueIndex: bool)

  datatype Breach =
    | NoTable | UnsupportedColumn(name: string) | MissingColumns(names: seq<string>)
    | NoSerial | SerialNotInteger | SerialNullable | SerialNotUnique | NoPartitioning | PartitioningNullable
    | IdentityDiffers | NamesDiffer | TopicMissing | OtherTopic | OtherPartitionCount
    | SlotMissing | HistoryLost | ConnectorMissing

  /** The configured columns the table lacks, in configured order. */
  function MissingOf(names: seq<string>, facts: TableFacts): seq<string> {
    if names == [] then []
    else
      var last := names[|names| - 1];
      MissingOf(names[..|names| - 1], facts) + if last in facts.columns then [] else [last]
  }

  lemma {:induction false} MissingExactly(names: seq<string>, facts: TableFacts, x: string)
    ensures x in MissingOf(names, facts) <==> x in names && x !in facts.columns
  {
    if names != [] {
      MissingExactly(names[..|names| - 1], facts, x);
      assert names == names[..|names| - 1] + [names[|names| - 1]];
    }
  }

  predicate Refused(name: string, facts: TableFacts) {
    name in facts.columns && !Supported(facts.columns[name].kind)
  }

  function FirstRefused(names: seq<string>, facts: TableFacts): Option<string> {
    if names == [] then None
    else if Refused(names[0], facts) then Some(names[0])
    else FirstRefused(names[1..], facts)
  }

  lemma {:induction false} NoneRefused(names: seq<string>, facts: TableFacts)
    ensures FirstRefused(names, facts) == None <==> forall x :: x in names ==> !Refused(x, facts)
  {
    if names != [] {
      NoneRefused(names[1..], facts);
      assert names == [names[0]] + names[1..];
    }
  }

  /** The configured columns the table has, with their types. */
  function Found(names: seq<string>, facts: TableFacts): (r: seq<Column>)
    ensures |r| + |MissingOf(names, facts)| == |names|
  {
    if names == [] then []
    else
      var last := names[|names| - 1];
      Found(names[..|names| - 1], facts) +
      if last in facts.columns then [Column(last, facts.columns[last].kind)] else []
  }

  lemma {:induction false} FoundAll(names: seq<string>, facts: TableFacts)
    requires MissingOf(names, facts) == []
    ensures forall i :: 0 <= i < |names| ==>
              names[i] in facts.columns && Found(names, facts)[i] == Column(names[i], facts.columns[names[i]].kind)
  {
    if names != [] { FoundAll(names[..|names| - 1], facts); }
  }

  function ColumnsOf(source: Source, facts: TableFacts): Result<seq<Column>, Breach> {
    var refused, missing := FirstRefused(source.columns, facts), MissingOf(source.columns, facts);
    if refused.Some? then Err(UnsupportedColumn(refused.value))
    else if missing != [] then Err(MissingColumns(missing))
    else Ok(Found(source.columns, facts))
  }

  lemma {:induction false} RefusedNext(names: seq<string>, facts: TableFacts, i: nat)
    requires i < |names| && FirstRefused(names[..i], facts) == None
    ensures if Refused(names[i], facts) then FirstRefused(names, facts) == Some(names[i])
            else FirstRefused(names[..i + 1], facts) == None
  {
    if i > 0 {
      assert names[..i] == [names[0]] + names[1..][..i - 1];
      assert names[..i + 1] == [names[0]] + names[1..][..i];
      RefusedNext(names[1..], facts, i - 1);
    }
  }

  lemma OneMore(names: seq<string>, facts: TableFacts, i: nat)
    requires i < |names|
    ensures MissingOf(names[..i + 1], facts) ==
            MissingOf(names[..i], facts) + if names[i] in facts.columns then [] else [names[i]]
    ensures Found(names[..i + 1], facts) ==
            Found(names[..i], facts) +
            if names[i] in facts.columns then [Column(names[i], facts.columns[names[i]].kind)] else []
  {
    assert names[..i + 1][..i] == names[..i];
  }

  /** Resolves the configured columns in order; all missing ones are reported together. */
  method ConfiguredColumns(source: Source, facts: TableFacts) returns (r: Result<seq<Column>, Breach>)
    ensures r == ColumnsOf(source, facts)
  {
    var names := source.columns;
    var missing: seq<string>, columns: seq<Column> := [], [];
    for i := 0 to |names|
      invariant FirstRefused(names[..i], facts) == None
      invariant missing == MissingOf(names[..i], facts)
      invariant columns == Found(names[..i], facts)
    {
      OneMore(names, facts, i);
      RefusedNext(names, facts, i);
      if names[i] !in facts.columns {
        missing := missing + [names[i]];
      } else {
        if !Supported(facts.columns[names[i]].kind) { return Err(UnsupportedColumn(names[i])); }
        columns := columns + [Column(names[i], facts.columns[names[i]].kind)];
      }
    }
    assert names[..|names|] == names;
    if missing != [] { return Err(MissingColumns(missing)); }
    return Ok(columns);
  }

  function SerialBreach(source: Source, facts: TableFacts): Option<Breach> {
    if source.serial !in facts.columns then Some(NoSerial)
    else if !Integer(facts.columns[source.serial].kind) then Some(SerialNotInteger)
    else if !facts.columns[source.serial].notNull then Some(SerialNullable)
    else if !facts.serialUniqueIndex then Some(SerialNotUnique)
    else None
  }

  function PartitioningBreach(source: Source, facts: TableFacts): Option<Breach> {
    if source.partitioning !in facts.columns then Some(NoPartitioning)
    else if !facts.columns[source.partitioning].notNull then Some(PartitioningNullable)
    else None
  }

  const EVENT_ID := "event_id"

  function IdentityFrom(source: Source, facts: TableFacts, partitions: int): Result<Identity, Breach> {
    if !facts.present then Err(NoTable)
    else
      match ColumnsOf(source, facts)
      case Err(b) => Err(b)
      case Ok(columns) =>
        if SerialBreach(source, facts).Some? then Err(SerialBreach(source, facts).value)
        else if PartitioningBreach(source, facts).Some? then Err(PartitioningBreach(source, facts).value)
        else
          var eventId := if EVENT_ID in source.columns then EVENT_ID else "";
          Ok(Identity(source.table, source.serial, source.partitioning, eventId, partitions, columns))
  }

  /** The contract a table must keep to be captured. */
  predicate MeetsContract(source: Source, facts: TableFacts) {
    && facts.present
    && (forall x :: x in source.columns ==> x in facts.columns && !facts.columns[x].kind.Unsupported?)
    && source.serial in facts.columns && facts.columns[source.serial].notNull
    && (var kind := facts.columns[source.serial].kind; kind.Int2? || kind.Int4? || kind.Int8?)
    && facts.serialUniqueIndex
    && source.partitioning in facts.columns && facts.columns[source.partitioning].notNull
  }

  lemma ColumnsExactly(source: Source, facts: TableFacts)
    ensures ColumnsOf(source, facts).Ok? <==>
            forall x :: x in source.columns ==> x in facts.columns && Supported(facts.columns[x].kind)
  {
    var missing := MissingOf(source.columns, facts);
    NoneRefused(source.columns, facts);
    forall x
      ensures x in missing <==> x in source.columns && x !in facts.columns
    {
      MissingExactly(source.columns, facts, x);
    }
    if missing != [] { assert missing[0] in missing; }
  }

  lemma IdentityExactly(source: Source, facts: TableFacts, partitions: int)
    ensures IdentityFrom(source, facts, partitions).Ok? <==> MeetsContract(source, facts)
    ensures IdentityFrom(source, facts, partitions).Ok? ==>
              var identity := IdentityFrom(source, facts, partitions).value;
              Freezes(identity, source, facts) && identity.partitions == partitions
  {
    ColumnsExactly(source, facts);
    if IdentityFrom(source, facts, partitions).Ok? { FoundAll(source.columns, facts); }
  }

  /** The identity is the table as configured: every column in order with the type the table gives it. */
  predicate Freezes(identity: Identity, source: Source, facts: TableFacts) {
    && identity.table == source.table && identity.serial == source.serial
    && identity.partitioning == source.partitioning
    && identity.eventId == (if "event_id" in source.columns then "event_id" else "")
    && |identity.columns| == |source.columns|
    && forall i :: 0 <= i < |source.columns| ==>
         && source.columns[i] in facts.columns
         && identity.columns[i] == Column(source.columns[i], facts.columns[source.columns[i]].kind)
  }

  /** What a breach says of the table. */
  ghost predicate Applies(b: Breach, source: Source, facts: TableFacts) {
    match b
    case NoTable => !facts.present
    case UnsupportedColumn(name) =>
      name in source.columns && name in facts.columns && facts.columns[name].kind.Unsupported?
    case MissingColumns(names) =>
      names != [] && forall x :: x in names <==> x in source.columns && x !in facts.columns
    case NoSerial => source.serial !in facts.columns
    case SerialNotInteger =>
      source.serial in facts.columns && facts.columns[source.serial].kind !in {Int2, Int4, Int8}
    case SerialNullable => source.serial in facts.columns && !facts.columns[source.serial].notNull
    case SerialNotUnique => !facts.serialUniqueIndex
    case NoPartitioning => source.partitioning !in facts.columns
    case PartitioningNullable => source.partitioning in facts.columns && !facts.columns[source.partitioning].notNull
    case _ => false
  }

  /** A table is refused only for what is wrong with it. */
  lemma BreachIsTrue(source: Source, facts: TableFacts, partitions: int)
    requires IdentityFrom(source, facts, partitions).Err?
    ensures Applies(IdentityFrom(source, facts, partitions).error, source, facts)
  {
    if FirstRefused(source.columns, facts).Some? { FirstIsRefused(source.columns, facts); }
    forall x
      ensures x in MissingOf(source.columns, facts) <==> x in source.columns && x !in facts.columns
    {
      MissingExactly(source.columns, facts, x);
    }
  }

  lemma {:induction false} FirstIsRefused(names: seq<string>, facts: TableFacts)
    requires FirstRefused(names, facts).Some?
    ensures FirstRefused(names, facts).value in names && Refused(FirstRefused(names, facts).value, facts)
  {
    if !Refused(names[0], facts) { FirstIsRefused(names[1..], facts); }
  }

  // ----- what the systems report

  datatype ConnectorState = Running | Failed | Paused | Unassigned | Restarting | OtherState(name: string)

  datatype Status = Status(connector: ConnectorState, tasks: seq<ConnectorState>, failed: bool)

  datatype WAL = Reserved | Extended | Unreserved | Lost | OtherWAL(name: string)

  datatype Slot = Slot(present: bool, wal: WAL)

  datatype Topic = Topic(present: bool, id: string, partitions: int, replicas: map<int, int>)

  datatype TopicFailure = PartitionError(detail: string) | TopicError | KafkaError

  datatype ConnectorFailure = UnknownConnector | ConnectError

  /** Why something could not be confirmed: a broken contract, or a dependency that did not answer. */
  datatype Problem = Contract(breach: Breach) | Unverified

  datatype Facts = Facts(
    table: Result<TableFacts, Problem>,
    topic: Result<Topic, TopicFailure>,
    slot: Result<Slot, ()>,
    connector: Result<Status, ConnectorFailure>)

  predicate HasLostHistory(slot: Slot) { slot.wal.Lost? || slot.wal.Unreserved? }

  predicate TasksRunning(tasks: seq<ConnectorState>) { forall t :: t in tasks ==> t == Running }

  predicate CaptureReady(status: Status, slot: Slot) {
    && status.connector == Running && status.tasks != [] && !status.failed
    && TasksRunning(status.tasks) && slot.present && !HasLostHistory(slot)
  }

  // ----- replication

  predicate Mismatches(replicas: map<int, int>, want: int, partition: int) {
    partition in replicas && replicas[partition] != want
  }

  /** The lowest partition with another number of replicas. */
  function LowestMismatch(replicas: map<int, int>, want: int): (r: Option<int>)
    ensures r == None <==> forall p :: p in replicas ==> replicas[p] == want
    ensures r.Some? ==> Mismatches(replicas, want, r.value)
                        && forall p :: Mismatches(replicas, want, p) ==> r.value <= p
  {
    var wrong := set p | p in replicas && Mismatches(replicas, want, p);
    assert forall p :: p in wrong <==> Mismatches(replicas, want, p);
    if wrong == {} then
      assert forall p :: p in replicas ==> !Mismatches(replicas, want, p);
      None
    else
      LeastExists(wrong);
      var least :| IsLeast(least, wrong);
      Some(least)
  }

  lemma Member<T>(s: set<T>) returns (x: T)
    requires s != {}
    ensures x in s
  {
    x :| x in s;
  }

  predicate IsLeast(x: int, s: set<int>) { x in s && forall y :: y in s ==> x <= y }

  lemma {:induction false} LeastExists(s: set<int>)
    requires s != {}
    ensures exists x :: IsLeast(x, s)
  {
    var x := Member(s);
    var rest := s - {x};
    if rest == {} {
      AloneIn(s, x);
      assert IsLeast(x, s);
    } else {
      LeastExists(rest);
      var least :| IsLeast(least, rest);
      LeastOf(s, x, least);
    }
  }

  lemma AloneIn(s: set<int>, x: int)
    requires x in s && s - {x} == {}
    ensures s == {x}
  {
    assert s == (s - {x}) + {x};
  }

  lemma LeastOf(s: set<int>, x: int, least: int)
    requires x in s && IsLeast(least, s - {x})
    ensures IsLeast(if x < least then x else least, s)
  {
    forall y | y in s
      ensures x <= y || least <= y
    {
      if y != x { assert y in s - {x}; }
    }
  }

  predicate Ascending(s: seq<int>) { forall i, j :: 0 <= i < j < |s| ==> s[i] < s[j] }

  /** Puts a new number in its place among sorted ones. */
  function Insert(x: int, s: seq<int>): (r: seq<int>)
    requires Ascending(s) && x !in s
    ensures Ascending(r) && forall y :: y in r <==> y == x || y in s
  {
    if s == [] then [x]
    else
      assert s == [s[0]] + s[1..];
      if s[0] < x then
        var rest := Insert(x, s[1..]);
        assert forall i :: 0 <= i < |rest| ==> rest[i] in rest;
        [s[0]] + rest
      else [x] + s
  }

  /** Sorts the partitions of the map, whose order is arbitrary, and names the first that does not match. */
  method ValidateReplication(replicas: map<int, int>, want: int) returns (r: Option<int>)
    ensures r == LowestMismatch(replicas, want)
  {
    var left, partitions: seq<int> := replicas.Keys, [];
    while left != {}
      invariant left <= replicas.Keys && Ascending(partitions)
      invariant forall p :: p in partitions <==> p in replicas && p !in left
    {
      ghost var member := Member(left);
      var p :| p in left;
      left := left - {p};
      partitions := Insert(p, partitions);
    }
    for i := 0 to |partitions|
      invariant forall j :: 0 <= j < i ==> !Mismatches(replicas, want, partitions[j])
    {
      var p := partitions[i];
      if replicas[p] != want {
        assert Mismatches(replicas, want, p);
        return Some(p);
      }
    }
    assert forall p :: p in replicas ==> p in partitions;
    return None;
  }

  // ----- inspection (inspect.go:13-158)

  datatype Finding = Fine | Blocked(reason: string) | Unavailable(reason: string)

  /** What both checks look at besides the answers of the systems. */
  datatype Expected = Expected(
    source: Source, registered: Registration, names: Names, partitions: int, replication: int)

  function InspectIdentity(e: Expected, facts: Facts): (f: Finding)
    ensures Worded(f)
  {
    match facts.table
    case Err(Contract(_)) => Blocked("source table violates capture contract")
    case Err(Unverified) => Unavailable("source database unavailable")
    case Ok(table) =>
      match IdentityFrom(e.source, table, e.partitions)
      case Err(_) => Blocked("source table violates capture contract")
      case Ok(identity) => if identity != e.registered.identity then Blocked("stream identity changed") else Fine
  }

  function InspectNames(e: Expected): (f: Finding)
    ensures Worded(f)
  {
    if e.registered.names != e.names then Blocked("stream configuration changed") else Fine
  }

  function InspectTopic(e: Expected, facts: Facts): (f: Finding)
    ensures Worded(f)
  {
    match facts.topic
    case Err(KafkaError) => Unavailable("Kafka metadata unavailable")
    case Err(PartitionError(detail)) => Unavailable(detail)
    case Err(TopicError) => Unavailable("Kafka topic unavailable")
    case Ok(topic) =>
      if !topic.present then Blocked("established topic missing")
      else if LowestMismatch(topic.replicas, e.replication).Some? then Unavailable("partition is not fully replicated")
      else if topic.id != e.registered.topic || topic.partitions != e.registered.identity.partitions
      then Blocked("topic identity changed")
      else Fine
  }

  function InspectSlot(facts: Facts): (f: Finding)
    ensures Worded(f)
  {
    match facts.slot
    case Err(_) => Unavailable("replication slot health unavailable")
    case Ok(slot) =>
      if !slot.present || HasLostHistory(slot) then Blocked("replication slot or WAL history lost") else Fine
  }

  function InspectConnector(facts: Facts): (f: Finding)
    ensures Worded(f)
  {
    match facts.connector
    case Err(UnknownConnector) => Blocked("established connector missing")
    case Err(ConnectError) => Unavailable("capture connector unavailable")
    case Ok(status) =>
      if status.failed || status.connector != Running || status.tasks == []
      then Unavailable("capture connector unavailable")
      else if !TasksRunning(status.tasks) then Unavailable("capture task unavailable")
      else Fine
  }

  function Checks(e: Expected, facts: Facts): seq<Finding> {
    [InspectIdentity(e, facts), InspectNames(e), InspectTopic(e, facts), InspectSlot(facts), InspectConnector(facts)]
  }

  function FirstFound(checks: seq<Finding>): Finding {
    if checks == [] then Fine else if checks[0] != Fine then checks[0] else FirstFound(checks[1..])
  }

  function Inspection(e: Expected, facts: Facts): Finding { FirstFound(Checks(e, facts)) }

  method InspectSource(e: Expected, facts: Facts) returns (f: Finding)
    ensures f == Inspection(e, facts)
  {
    var checks := Checks(e, facts);
    for i := 0 to |checks|
      invariant FirstFound(checks) == FirstFound(checks[i..])
    {
      if checks[i] != Fine { return checks[i]; }
    }
    return Fine;
  }

  // ----- validation of a registered stream (inspect.go:160-235)

  function ValidateTopic(e: Expected, identity: Identity, facts: Facts): Option<Problem> {
    match facts.topic
    case Err(_) => Some(Unverified)
    case Ok(topic) =>
      if !topic.present then Some(Contract(TopicMissing))
      else if LowestMismatch(topic.replicas, e.replication).Some? then Some(Unverified)
      else if topic.id != e.registered.topic then Some(Contract(OtherTopic))
      else if topic.partitions != identity.partitions then Some(Contract(OtherPartitionCount))
      else None
  }

  function ValidateSlot(facts: Facts): Option<Problem> {
    match facts.slot
    case Err(_) => Some(Unverified)
    case Ok(slot) =>
      if !slot.present then Some(Contract(SlotMissing))
      else if HasLostHistory(slot) then Some(Contract(HistoryLost))
      else None
  }

  function ValidateConnector(facts: Facts): Option<Problem> {
    match facts.connector
    case Err(UnknownConnector) => Some(Contract(ConnectorMissing))
    case Err(ConnectError) => Some(Unverified)
    case Ok(status) => if status.failed then Some(Unverified) else None
  }

  function ValidateRegistered(e: Expected, identity: Identity, facts: Facts): Option<Problem> {
    if e.registered.identity != identity then Some(Contract(IdentityDiffers))
    else if e.registered.names != e.names then Some(Contract(NamesDiffer))
    else if ValidateTopic(e, identity, facts).Some? then ValidateTopic(e, identity, facts)
    else if ValidateSlot(facts).Some? then ValidateSlot(facts)
    else ValidateConnector(facts)
  }

  /** What a breach says of a registered stream. */
  ghost predicate AppliesTo(b: Breach, e: Expected, identity: Identity, facts: Facts) {
    match b
    case IdentityDiffers => e.registered.identity != identity
    case NamesDiffer => e.registered.names != e.names
    case TopicMissing => facts.topic.Ok? && !facts.topic.value.present
    case OtherTopic => facts.topic.Ok? && facts.topic.value.id != e.registered.topic
    case OtherPartitionCount => facts.topic.Ok? && facts.topic.value.partitions != identity.partitions
    case SlotMissing => facts.slot.Ok? && !facts.slot.value.present
    case HistoryLost => facts.slot.Ok? && facts.slot.value.present && facts.slot.value.wal in {Lost, Unreserved}
    case ConnectorMissing => facts.connector == Err(UnknownConnector)
    case _ => false
  }

  /** A registered stream is found broken only for what is wrong with it. */
  lemma RegisteredBreachIsTrue(e: Expected, identity: Identity, facts: Facts)
    requires IsContract(ValidateRegistered(e, identity, facts))
    ensures AppliesTo(ValidateRegistered(e, identity, facts).value.breach, e, identity, facts)
  {
    assert IsContract(ValidateTopic(e, identity, facts)) ==>
      AppliesTo(ValidateTopic(e, identity, facts).value.breach, e, identity, facts);
    assert IsContract(ValidateSlot(facts)) ==>
      AppliesTo(ValidateSlot(facts).value.breach, e, identity, facts);
  }

  /** What provisioning finds wrong with a stream that is registered and not blocked. */
  function Confirmation(e: Expected, facts: Facts): Option<Problem> {
    match facts.table
    case Err(problem) => Some(problem)
    case Ok(table) =>
      match IdentityFrom(e.source, table, e.partitions)
      case Err(breach) => Some(Contract(breach))
      case Ok(identity) => ValidateRegistered(e, identity, facts)
  }

  predicate IsContract(p: Option<Problem>) { p.Some? && p.value.Contract? }

  predicate ConnectorRuns(facts: Facts) {
    && facts.connector.Ok? && facts.connector.value.connector == Running
    && facts.connector.value.tasks != [] && TasksRunning(facts.connector.value.tasks)
  }

  lemma SameTopic(e: Expected, facts: Facts)
    ensures var p := ValidateTopic(e, e.registered.identity, facts);
            (InspectTopic(e, facts).Blocked? <==> IsContract(p)) && (InspectTopic(e, facts) == Fine <==> p == None)
  {
  }

  lemma SameSlotAndConnector(facts: Facts)
    ensures InspectSlot(facts).Blocked? <==> IsContract(ValidateSlot(facts))
    ensures InspectSlot(facts) == Fine <==> ValidateSlot(facts) == None
    ensures InspectConnector(facts).Blocked? <==> IsContract(ValidateConnector(facts))
    ensures InspectConnector(facts) == Fine <==> ValidateConnector(facts) == None && ConnectorRuns(facts)
  {
  }

  /** Once the table identity has been read and is the registered one. */
  lemma SameVerdictBehindIdentity(e: Expected, facts: Facts)
    requires InspectIdentity(e, facts) == Fine
    ensures Inspection(e, facts).Blocked? <==> IsContract(ValidateRegistered(e, e.registered.identity, facts))
    ensures Inspection(e, facts) == Fine <==>
            ValidateRegistered(e, e.registered.identity, facts) == None && ConnectorRuns(facts)
  {
    InspectionInOrder(e, facts);
    SameTopic(e, facts);
    SameSlotAndConnector(facts);
  }

  /**
   * The two checks never disagree about what is broken for good: on the same answers inspection
   * blocks exactly when provisioning finds a broken contract. They differ only in how much of a
   * connector's status they ask for.
   */
  lemma SameVerdict(e: Expected, facts: Facts)
    ensures Inspection(e, facts).Blocked? <==> IsContract(Confirmation(e, facts))
    ensures Inspection(e, facts) == Fine <==> Confirmation(e, facts) == None && ConnectorRuns(facts)
  {
    InspectionInOrder(e, facts);
    if InspectIdentity(e, facts) == Fine { SameVerdictBehindIdentity(e, facts); }
  }

  lemma InspectionInOrder(e: Expected, facts: Facts)
    ensures Inspection(e, facts) ==
            if InspectIdentity(e, facts) != Fine then InspectIdentity(e, facts)
            else if InspectNames(e) != Fine then InspectNames(e)
            else if InspectTopic(e, facts) != Fine then InspectTopic(e, facts)
            else if InspectSlot(facts) != Fine then InspectSlot(facts)
            else InspectConnector(facts)
  {
    var c := Checks(e, facts);
    assert c[1..] == [c[1], c[2], c[3], c[4]];
    assert c[1..][1..] == [c[2], c[3], c[4]];
    assert c[1..][1..][1..] == [c[3], c[4]];
    assert c[1..][1..][1..][1..] == [c[4]];
    assert FirstFound(c[1..]) == if c[1] != Fine then c[1] else FirstFound(c[1..][1..]);
    assert FirstFound([c[4]]) == if c[4] != Fine then c[4] else FirstFound([c[4]][1..]);
  }

  predicate Worded(f: Finding) { f.Blocked? ==> f.reason != "" && 'a' <= f.reason[0] <= 'z' }

  lemma {:induction false} FirstWorded(checks: seq<Finding>)
    requires forall i :: 0 <= i < |checks| ==> Worded(checks[i])
    ensures Worded(FirstFound(checks))
  {
    if checks != [] && checks[0] == Fine { FirstWorded(checks[1..]); }
  }

  lemma WordsAreNotBlank(s: string)
    requires s != "" && 'a' <= s[0] <= 'z'
    ensures !Blank(s)
  {
    assert !Space(s[0]);
  }

  /** A permanent verdict always comes with a reason the control store accepts. */
  lemma BlockedHasReason(e: Expected, facts: Facts)
    requires Inspection(e, facts).Blocked?
    ensures !Blank(Inspection(e, facts).reason)
  {
    FirstWorded(Checks(e, facts));
    WordsAreNotBlank(Inspection(e, facts).reason);
  }
}
