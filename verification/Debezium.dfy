/** internal/adapters/debezium/decode.go: which identities are accepted, and what a decoded payload holds. */
module Debezium {
  import opened Basics
  import opened Streams
  import opened Provision

  // ----- the identity

  predicate Distinct(names: seq<string>) {
    forall i, j :: 0 <= i < j < |names| ==> names[i] != names[j]
  }

  function NamesOf(columns: seq<Column>): (names: seq<string>)
    ensures |names| == |columns| && forall i :: 0 <= i < |names| ==> names[i] == columns[i].name
  {
    seq(|columns|, i requires 0 <= i < |columns| => columns[i].name)
  }

  /** The identity is the frozen form of the source's configuration, column for column. */
  predicate Matches(source: Source, identity: Identity) {
    && identity.table == source.table && identity.serial == source.serial
    && identity.partitioning == source.partitioning && NamesOf(identity.columns) == source.columns
  }

  predicate Fits(c: Column, identity: Identity) {
    Supported(c.kind) && (c.name == identity.serial ==> Integer(c.kind))
  }

  /** And it can be decoded by: nothing empty or twice, known types, and the columns it names among its own. */
  predicate Usable(identity: Identity) {
    var names := NamesOf(identity.columns);
    && identity.table != "" && identity.partitions >= 1
    && Distinct(names) && "" !in names
    && identity.serial in names && identity.partitioning in names
    && (identity.eventId == "" || identity.eventId in names)
    && forall i :: 0 <= i < |identity.columns| ==>
         var c := identity.columns[i];
         !c.kind.Unsupported? && (c.name == identity.serial ==> c.kind.Int2? || c.kind.Int4? || c.kind.Int8?)
  }

  predicate ValidIdentity(source: Source, identity: Identity, generation: int) {
    generation >= 1 && Matches(source, identity) && Usable(identity)
  }

  method ValidateIdentity(source: Source, identity: Identity, generation: int) returns (ok: bool)
    ensures ok <==> ValidIdentity(source, identity, generation)
  {
    if generation < 1 { return false; }
    if source.table == "" || identity.table == "" || identity.table != source.table { return false; }
    if identity.serial == "" || identity.partitioning == "" || identity.serial != source.serial
       || identity.partitioning != source.partitioning { return false; }
    if identity.partitions < 1 { return false; }
    if source.columns == [] || |identity.columns| != |source.columns| { return false; }
    var seen: set<string>, columns := {}, identity.columns;
    ghost var names := NamesOf(columns);
    for i := 0 to |columns|
      invariant seen == set x | x in names[..i]
      invariant names[..i] == source.columns[..i] && Distinct(names[..i]) && "" !in names[..i]
      invariant forall j :: 0 <= j < i ==> Fits(columns[j], identity)
    {
      assert names[..i + 1] == names[..i] + [names[i]];
      if columns[i].name == "" || columns[i].name in seen || source.columns[i] != columns[i].name { return false; }
      seen := seen + {columns[i].name};
      if !Fits(columns[i], identity) { return false; }
    }
    assert names[..|columns|] == names;
    return identity.serial in seen && identity.partitioning in seen &&
      (identity.eventId == "" || identity.eventId in seen);
  }

  /**
   * What provisioning freezes is what decoding accepts, exactly when the configuration names no
   * column twice or emptily, lists its serial and partitioning columns, and has a table, a
   * partition and a generation.
   */
  lemma FrozenIdentityIsAccepted(source: Source, facts: TableFacts, partitions: int, generation: int)
    requires IdentityFrom(source, facts, partitions).Ok?
    ensures ValidIdentity(source, IdentityFrom(source, facts, partitions).value, generation) <==>
            && generation >= 1 && partitions >= 1 && source.table != ""
            && Distinct(source.columns) && "" !in source.columns
            && source.serial in source.columns && source.partitioning in source.columns
    ensures var identity := IdentityFrom(source, facts, partitions).value;
            && Matches(source, identity) && identity.partitions == partitions
            && (identity.eventId == "event_id" <==> "event_id" in source.columns)
            && (identity.eventId == "" <==> "event_id" !in source.columns)
  {
    var identity := IdentityFrom(source, facts, partitions).value;
    FoundAll(source.columns, facts);
    assert NamesOf(identity.columns) == source.columns;
    NoneRefused(source.columns, facts);
    forall i | 0 <= i < |identity.columns|
      ensures Fits(identity.columns[i], identity)
    {
      assert source.columns[i] in source.columns;
    }
  }

  /** The rules a configured source is loaded by: they ask for the two columns, but not that columns differ. */
  predicate Configured(source: Source) {
    && source.table != "" && source.serial != "" && source.partitioning != ""
    && source.serial in source.columns && source.partitioning in source.columns
  }

  /** A source that lists its only column twice, and a table that has it. */
  const Twice := Source("orders", "events", ["id", "id"], "id", "id")

  const OneColumn := TableFacts(true, map["id" := ColumnFacts(Int8, true)], true)

  lemma TwiceIsFrozen()
    ensures IdentityFrom(Twice, OneColumn, 1).Ok?
  {
    IdentityExactly(Twice, OneColumn, 1);
    assert forall x :: x in Twice.columns ==> x == "id";
  }

  lemma TwiceIsNotAccepted(generation: int)
    requires IdentityFrom(Twice, OneColumn, 1).Ok?
    ensures !ValidIdentity(Twice, IdentityFrom(Twice, OneColumn, 1).value, generation)
  {
    assert !Distinct(Twice.columns) by { assert Twice.columns[0] == Twice.columns[1]; }
    FrozenIdentityIsAccepted(Twice, OneColumn, 1, generation);
  }

  /** A configuration that lists a column twice is loaded and provisioned, and then nothing can be decoded. */
  lemma RepeatedColumnCannotBeDecoded()
    ensures exists source: Source, facts: TableFacts ::
              && Configured(source) && "" !in source.columns && IdentityFrom(source, facts, 1).Ok?
              && forall generation :: !ValidIdentity(source, IdentityFrom(source, facts, 1).value, generation)
  {
    TwiceIsFrozen();
    forall generation: int
      ensures !ValidIdentity(Twice, IdentityFrom(Twice, OneColumn, 1).value, generation)
    {
      TwiceIsNotAccepted(generation);
    }
    assert Configured(Twice) && "" !in Twice.columns;
  }

  // ----- JSON as decoding sees it

  /** One JSON value without insignificant white space; raw is its text. */
  datatype Value = Null | String(raw: string, text: string) | Object(fields: map<string, Value>) | Other(raw: string)

  /** A record's key and value are None when they are empty or not JSON. */
  datatype RawRecord = RawRecord(topic: string, partition: int, offset: int, key: Option<Value>, value: Option<Value>)

  datatype Record = Record(
    source: Source, payload: map<string, Value>, eventId: string, generation: int,
    topic: string, partition: int, offset: int, aggregateId: string, eventName: string)

  function DecodeObject(raw: Option<Value>): Option<map<string, Value>> {
    if raw.Some? && raw.value.Object? then Some(raw.value.fields) else None
  }

  /** Decoding null into a string leaves the string empty and is no error. */
  function DecodeString(v: Value): Option<string> {
    match v
    case Null => Some("")
    case String(_, text) => Some(text)
    case Object(_) => None
    case Other(_) => None
  }

  function StringField(fields: map<string, Value>, name: string): Option<string> {
    if name in fields then DecodeString(fields[name]) else None
  }

  function OptionalString(values: map<string, Value>, column: string): string {
    if StringField(values, column).Some? then StringField(values, column).value else ""
  }

  function Field(fields: map<string, Value>, name: string): Option<Value> {
    if name in fields then Some(fields[name]) else None
  }

  /** The conversion of a non-null value of a column type; null stays null. */
  function ConvertValue(convert: (PGType, Value) -> Option<Value>, kind: PGType, v: Value): Option<Value> {
    if v.Null? then Some(Null) else convert(kind, v)
  }

  function ColumnNamed(columns: seq<Column>, name: string): Option<Column> {
    if columns == [] then None
    else if columns[0].name == name then Some(columns[0])
    else ColumnNamed(columns[1..], name)
  }

  predicate ValidSource(envelope: map<string, Value>, source: Source) {
    var metadata := DecodeObject(Field(envelope, "source"));
    && metadata.Some?
    && StringField(metadata.value, "schema") == Some("public")
    && StringField(metadata.value, "table") == Some(source.table)
  }

  predicate ValidKey(key: Option<Value>, after: map<string, Value>, identity: Identity,
                     convert: (PGType, Value) -> Option<Value>) {
    var name, fields := identity.partitioning, DecodeObject(key);
    && fields.Some? && |fields.value| == 1 && name in fields.value && fields.value[name] != Null
    && name in after && after[name] != Null
    && (ColumnNamed(identity.columns, name).Some? ==>
          ConvertValue(convert, ColumnNamed(identity.columns, name).value.kind, fields.value[name]).Some?)
    && fields.value[name] == after[name]
  }

  /** The row image, if the envelope, the source metadata and the key are in order. */
  function AfterObject(record: RawRecord, source: Source, identity: Identity,
                       convert: (PGType, Value) -> Option<Value>): Option<map<string, Value>> {
    var envelope := DecodeObject(record.value);
    if envelope == None then None
    else
      var op, after := StringField(envelope.value, "op"), DecodeObject(Field(envelope.value, "after"));
      if op != Some("c") && op != Some("r") then None
      else if !ValidSource(envelope.value, source) then None
      else if after == None || !ValidKey(record.key, after.value, identity, convert) then None
      else after
  }

  function ConfiguredValue(after: map<string, Value>, column: Column, identity: Identity,
                           convert: (PGType, Value) -> Option<Value>): Option<Value> {
    if column.name !in after then None
    else if after[column.name].Null? && column.name in [identity.serial, identity.partitioning] then None
    else ConvertValue(convert, column.kind, after[column.name])
  }

  function EventIdFrom(v: Value): Option<string> {
    if v.Null? || DecodeString(v) == Some("") then None else DecodeString(v)
  }

  /** A column whose value converts, and is an event id where it has to be one. */
  predicate Converts(after: map<string, Value>, column: Column, identity: Identity,
                     convert: (PGType, Value) -> Option<Value>) {
    && ConfiguredValue(after, column, identity, convert).Some?
    && (column.name == identity.eventId ==> EventIdFrom(after[column.name]).Some?)
  }

  method ConfiguredValues(after: map<string, Value>, identity: Identity, convert: (PGType, Value) -> Option<Value>)
    returns (r: Option<(map<string, Value>, string)>)
    requires Distinct(NamesOf(identity.columns))
    ensures r.Some? <==>
              forall i :: 0 <= i < |identity.columns| ==> Converts(after, identity.columns[i], identity, convert)
    ensures r.Some? ==> r.value.0.Keys == set x | x in NamesOf(identity.columns)
    ensures r.Some? ==> forall i :: 0 <= i < |identity.columns| ==>
              var c := identity.columns[i];
              c.name in r.value.0 && ConfiguredValue(after, c, identity, convert) == Some(r.value.0[c.name])
    ensures r.Some? ==> if identity.eventId in NamesOf(identity.columns)
                        then identity.eventId in after && EventIdFrom(after[identity.eventId]) == Some(r.value.1)
                        else r.value.1 == ""
  {
    var columns := identity.columns;
    ghost var names := NamesOf(columns);
    var values: map<string, Value>, eventId := map[], "";
    for i := 0 to |columns|
      invariant forall j :: 0 <= j < i ==> Converts(after, columns[j], identity, convert)
      invariant values.Keys == set x | x in names[..i]
      invariant forall j :: 0 <= j < i ==>
                  columns[j].name in values
                  && ConfiguredValue(after, columns[j], identity, convert) == Some(values[columns[j].name])
      invariant if identity.eventId in names[..i]
                then identity.eventId in after && EventIdFrom(after[identity.eventId]) == Some(eventId)
                else eventId == ""
    {
      var column := columns[i];
      assert names[..i + 1] == names[..i] + [names[i]];
      var converted := ConfiguredValue(after, column, identity, convert);
      if converted == None { return None; }
      values := values[column.name := converted.value];
      if column.name == identity.eventId {
        var id := EventIdFrom(after[column.name]);
        if id == None { return None; }
        eventId := id.value;
      }
    }
    assert names[..|columns|] == names;
    return Some((values, eventId));
  }

  /** The record's JSON as Debezium writes it for an insert or a snapshot row of this table. */
  ghost predicate InOrder(source: Source, record: RawRecord) {
    && record.value.Some? && record.value.value.Object?
    && var envelope := record.value.value.fields;
    && "op" in envelope && envelope["op"].String? && (envelope["op"].text == "c" || envelope["op"].text == "r")
    && "after" in envelope && envelope["after"].Object?
    && "source" in envelope && envelope["source"].Object?
    && var metadata := envelope["source"].fields;
    && "schema" in metadata && metadata["schema"].String? && metadata["schema"].text == "public"
    && "table" in metadata && metadata["table"].String? && metadata["table"].text == source.table
  }

  function RowOf(record: RawRecord): map<string, Value>
    requires record.value.Some? && record.value.value.Object? && "after" in record.value.value.fields
    requires record.value.value.fields["after"].Object?
  {
    record.value.value.fields["after"].fields
  }

  /** The record's key has one field: the row's partitioning value, not null, and of its column's type. */
  ghost predicate Keyed(key: Option<Value>, row: map<string, Value>, identity: Identity,
                        convert: (PGType, Value) -> Option<Value>) {
    var name := identity.partitioning;
    && key.Some? && key.value.Object? && key.value.fields.Keys == {name} && key.value.fields[name] != Null
    && name in row && row[name] == key.value.fields[name]
    && forall i :: 0 <= i < |identity.columns| && identity.columns[i].name == name ==>
         convert(identity.columns[i].kind, row[name]).Some?
  }

  /** The row has a value for this column: one of its type, or a null that is allowed; event ids are texts. */
  ghost predicate Holds(row: map<string, Value>, column: Column, identity: Identity,
                        convert: (PGType, Value) -> Option<Value>) {
    && column.name in row
    && (if row[column.name] == Null then column.name != identity.serial && column.name != identity.partitioning
        else convert(column.kind, row[column.name]).Some?)
    && (column.name == identity.eventId ==> row[column.name].String? && row[column.name].text != "")
  }

  /** Everything that makes a record a delivered event. */
  ghost predicate Decodable(source: Source, identity: Identity, generation: int, record: RawRecord,
                            convert: (PGType, Value) -> Option<Value>) {
    && ValidIdentity(source, identity, generation)
    && InOrder(source, record) && Keyed(record.key, RowOf(record), identity, convert)
    && forall i :: 0 <= i < |identity.columns| ==> Holds(RowOf(record), identity.columns[i], identity, convert)
  }

  lemma {:induction false} ColumnNamedAt(columns: seq<Column>, i: nat)
    requires i < |columns| && Distinct(NamesOf(columns))
    ensures ColumnNamed(columns, columns[i].name) == Some(columns[i])
  {
    if i > 0 {
      assert NamesOf(columns)[0] != NamesOf(columns)[i];
      assert NamesOf(columns[1..]) == NamesOf(columns)[1..];
      ColumnNamedAt(columns[1..], i - 1);
    }
  }

  lemma KeyedExactly(key: Option<Value>, row: map<string, Value>, identity: Identity,
                     convert: (PGType, Value) -> Option<Value>)
    requires Distinct(NamesOf(identity.columns)) && identity.partitioning in NamesOf(identity.columns)
    ensures ValidKey(key, row, identity, convert) <==> Keyed(key, row, identity, convert)
  {
    var name, names := identity.partitioning, NamesOf(identity.columns);
    var k :| 0 <= k < |names| && names[k] == name;
    ColumnNamedAt(identity.columns, k);
    assert forall i :: 0 <= i < |names| && names[i] == name ==> i == k;
    if key.Some? && key.value.Object? && name in key.value.fields && |key.value.fields| == 1 {
      OnlyMember(key.value.fields.Keys, name);
    }
  }

  /** What the code looks up in the envelope is what a record in order has. */
  lemma EnvelopeExactly(source: Source, identity: Identity, generation: int, record: RawRecord,
                        convert: (PGType, Value) -> Option<Value>)
    requires ValidIdentity(source, identity, generation)
    ensures var after := AfterObject(record, source, identity, convert);
            if InOrder(source, record) && Keyed(record.key, RowOf(record), identity, convert)
            then after == Some(RowOf(record)) else after == None
  {
    if InOrder(source, record) { KeyedExactly(record.key, RowOf(record), identity, convert); }
  }

  lemma HoldsExactly(row: map<string, Value>, column: Column, identity: Identity,
                     convert: (PGType, Value) -> Option<Value>)
    ensures Converts(row, column, identity, convert) <==> Holds(row, column, identity, convert)
  {
  }

  /**
   * A record is decoded exactly when it can be. Its payload has exactly the configured columns as keys, each
   * with the converted value of the row image, a null staying null.
   */
  method Decode(source: Source, identity: Identity, generation: int, record: Option<RawRecord>,
                convert: (PGType, Value) -> Option<Value>) returns (r: Option<Record>)
    ensures r.Some? <==> record.Some? && Decodable(source, identity, generation, record.value, convert)
    ensures r.Some? ==> r.value.payload.Keys == set x | x in source.columns
    ensures r.Some? ==> forall i :: 0 <= i < |identity.columns| ==>
              var c, row := identity.columns[i], RowOf(record.value);
              c.name in r.value.payload
              && Some(r.value.payload[c.name]) ==
                 if row[c.name] == Null then Some(Null) else convert(c.kind, row[c.name])
    ensures r.Some? ==> r.value.source == source && r.value.generation == generation
                        && r.value.topic == record.value.topic && r.value.partition == record.value.partition
                        && r.value.offset == record.value.offset
    ensures r.Some? ==> r.value.eventId == if identity.eventId == "" then ""
                                           else RowOf(record.value)[identity.eventId].text
    ensures r.Some? ==> r.value.aggregateId == TextIn(r.value.payload, "aggregate_id")
                        && r.value.eventName == TextIn(r.value.payload, "event_name")
  {
    if record == None { return None; }
    var valid := ValidateIdentity(source, identity, generation);
    if !valid { return None; }
    EnvelopeExactly(source, identity, generation, record.value, convert);
    var after := AfterObject(record.value, source, identity, convert);
    if after == None { return None; }
    forall i | 0 <= i < |identity.columns|
      ensures Converts(after.value, identity.columns[i], identity, convert) <==>
              Holds(after.value, identity.columns[i], identity, convert)
    {
      HoldsExactly(after.value, identity.columns[i], identity, convert);
    }
    var values := ConfiguredValues(after.value, identity, convert);
    if values == None { return None; }
    var (payload, eventId) := values.value;
    return Some(Record(source, payload, eventId, generation, record.value.topic, record.value.partition,
                       record.value.offset, OptionalString(payload, "aggregate_id"),
                       OptionalString(payload, "event_name")));
  }

  /** The text under a key of a payload, or nothing. */
  ghost function TextIn(payload: map<string, Value>, key: string): string {
    if key in payload && payload[key].String? then payload[key].text else ""
  }

  /** The partitioning value in a payload is the conversion of the record's key, so equal keys give equal values. */
  lemma KeyIsThePartitioningValue(source: Source, identity: Identity, generation: int, record: RawRecord,
                                  convert: (PGType, Value) -> Option<Value>, i: nat)
    requires Decodable(source, identity, generation, record, convert)
    requires i < |identity.columns| && identity.columns[i].name == source.partitioning
    ensures record.key.Some? && record.key.value.Object?
            && record.key.value.fields.Keys == {source.partitioning}
            && ConfiguredValue(RowOf(record), identity.columns[i], identity, convert)
               == convert(identity.columns[i].kind, record.key.value.fields[source.partitioning])
  {
  }

  lemma OnlyMember<T>(s: set<T>, x: T)
    requires x in s && |s| == 1
    ensures s == {x}
  {
    assert |s - {x}| == 0;
    assert s == (s - {x}) + {x};
  }
}
