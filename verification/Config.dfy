/** The configuration of the state machine. */
module Config {
  import opened DataModel

  /** Routing, printing and key generation are functions that the state machine only applies: what is
      proved of it holds for every choice of them. `route` is None for a topic that is not configured. */
  datatype Config = Config(
    route: Record -> Option<StreamId>,
    line: Record -> Printed,
    key: (StreamId, Path) -> Bytes,
    maxActiveFileTimeoutMs: nat,
    maxConcurrentUploads: nat,
    maxUploadsRetry: nat,
    targetFileSizeB: nat)
}
