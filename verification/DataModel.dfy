/** The values that flow through the sink: records, stream and partition identifiers,
    topic configuration and errors. Text is modelled as UTF-8 bytes, as Rust stores it. */
module DataModel {
  newtype byte = x: int | 0 <= x < 256

  type Bytes = seq<byte>

  datatype StreamId = StreamId(name: Bytes)

  /** A file path. Paths are drawn from a counter, which stands for the distinct UUIDs of the source. */
  type Path = nat

  datatype Option<+T> = None | Some(value: T)

  datatype Result<+T> = Ok(value: T) | Err(error: SinkError)

  datatype SinkError = IO | Configuration | FileRegistry | Serialization | S3Upload

  datatype TopicId = TopicId(topic: Bytes, partition: int)

  datatype Header = Header(key: Bytes, value: Option<Bytes>)

  datatype Record = Record(topic: Bytes, partition: int, offset: int,
                           payload: Option<Bytes>, headers: Option<seq<Header>>)
  {
    function Tid(): TopicId { TopicId(topic, partition) }

    function HeaderList(): seq<Header> { if headers.Some? then headers.value else [] }
  }

  datatype RouterStrategy = TopicVersion | Dlq

  datatype RecordDecoder = JsonSchemaDecoder | JsonStringDecoder
  {
    /** The data payload of a raw payload: five framing bytes are stripped for schema-framed records. */
    function DataPayload(payload: Bytes): Option<Bytes> {
      match this
      case JsonSchemaDecoder =>
        if |payload| >= 5 && payload[0] == 0 then Some(payload[5..]) else None
      case JsonStringDecoder => Some(payload)
    }
  }

  datatype TopicConfig = TopicConfig(decoder: RecordDecoder, router: RouterStrategy)

  /** The wall-clock and UUID parts of an object key, opaque to the model. */
  datatype Stamp = Stamp(day: Bytes, time: Bytes, uuid: Bytes)

  /** Offsets listed per partition, in order of consumption. */
  type Offsets = map<TopicId, seq<int>>

  predicate NonEmptyLine(res: Result<Option<Bytes>>) {
    res.Ok? && res.value.Some? ==> res.value.value != []
  }

  /** What printing a record yields: a line, nothing for a skipped record, or an error. Lines are not empty. */
  type Printed = res: Result<Option<Bytes>> | NonEmptyLine(res) witness Ok(None)

  /** ASCII text as bytes. */
  function Ascii(s: string): (b: Bytes)
    requires forall i | 0 <= i < |s| :: s[i] < 128 as char
    ensures |b| == |s| && forall i | 0 <= i < |s| :: b[i] as int == s[i] as int
  {
    seq(|s|, i requires 0 <= i < |s| => s[i] as byte)
  }
}
