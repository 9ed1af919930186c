/** The settings of the program, and the state machine configuration they amount to. */
module Settings {
  import opened DataModel
  import opened Config
  import opened JsonSerializer
  import opened Router
  import opened KeyGenerator

  /** The settings the program is started with; `stamp` gives the clock and UUID parts of the key
      under which a file is stored. */
  datatype Settings = Settings(
    topics: map<Bytes, TopicConfig>,
    stamp: Path -> Stamp,
    maxActiveFileTimeoutMs: nat,
    maxConcurrentUploads: nat,
    maxUploadsRetry: nat,
    targetFileSizeB: nat)
  {
    function Route(r: Record): Option<StreamId> {
      if r.topic in topics then Some(StreamIdOf(topics[r.topic].router, r)) else None
    }

    function Print(r: Record): Printed {
      if r.topic in topics then Serialized(r, topics[r.topic].decoder) else Err(Configuration)
    }

    /** The state machine's configuration: the router, the serializer and the key generator of the sink. */
    function Configure(): Config {
      Config(r => this.Route(r), r => this.Print(r), (id: StreamId, path: Path) => KeyInner(id, stamp(path)),
             maxActiveFileTimeoutMs, maxConcurrentUploads, maxUploadsRetry, targetFileSizeB)
    }
  }
}
