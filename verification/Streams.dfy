/** internal/stream/stream.go: what a capture is configured with and what is frozen about it. */
module Streams {

  datatype PGType =
    | Int2 | Int4 | Int8 | Float4 | Float8 | Bool | Json | Bytea | Timestamp | Timestamptz | Text
    | Unsupported(name: string)

  predicate Supported(t: PGType) { !t.Unsupported? }

  predicate Integer(t: PGType) { t.Int2? || t.Int4? || t.Int8? }

  datatype Column = Column(name: string, kind: PGType)

  datatype Source = Source(id: string, table: string, columns: seq<string>, serial: string, partitioning: string)

  datatype Identity = Identity(
    table: string, serial: string, partitioning: string, eventId: string, partitions: int, columns: seq<Column>)

  datatype Names = Names(topicPrefix: string, topic: string, connector: string, slot: string, publication: string)

  datatype Registration = Registration(identity: Identity, names: Names, topic: string, blocked: string)
}
