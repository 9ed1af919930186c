/** What each request does to the state machine, as a function of its state. The order in which a hash
    map yields its keys, the clock and disk failures are inputs. */
module MachineModel {
  import opened DataModel
  import opened Config
  import opened FileRegistry
  import opened Ledger
  import Track

  datatype StreamState = StreamState(
    bytesConsumed: nat, recordsConsumed: nat, offsetsConsumed: Offsets, createdAt: int)

  datatype SealedFile = SealedFile(
    path: Path, rawSizeB: nat, recordCount: nat, offsetsConsumed: Offsets, createdAt: int)

  datatype ToUpload = ToUpload(objectKey: Bytes, file: SealedFile, retries: nat)
  {
    function Decrement(): ToUpload
      requires retries > 0
    {
      this.(retries := retries - 1)
    }
  }

  datatype UploadResult = Success(fileToGc: Path, offsets: Offsets) | Failure(toUpload: ToUpload)

  /** Offsets to commit, per partition. */
  type CommitList = map<TopicId, int>

  datatype Request =
    | ProcessRecord(record: Record)
    | UploadTick
    | CommitTick(assignment: set<TopicId>)
    | UploadCompletion(result: UploadResult)
    | FinalCommit(assignment: set<TopicId>)
    | RevokePartitions(partitions: set<TopicId>)
    | ShutdownSignal

  datatype Response =
    | RecordConsumed
    | ReadyForUpload(toUpload: ToUpload)
    | CommitAsync(tpl: CommitList)
    | CommitSync(tpl: CommitList)
    | DeleteFile(path: Path)
    | DrainAndShutdown
    | Fatal(error: SinkError)

  /** The surroundings of one request: the time, the iteration order of the stream map, and
      how writing fails, if it does, and whose file cannot be closed. */
  datatype Env = Env(now: int, order: seq<StreamId>, writeFault: WriteFault, closeFails: set<StreamId>)

  datatype Machine = Machine(
    streams: map<StreamId, StreamState>,
    registry: Registry,
    uploaded: map<TopicId, set<int>>,
    watermark: map<TopicId, int>,
    inFlight: nat,
    history: History)

  function New(registry: Registry): Machine {
    Machine(map[], registry, map[], map[], 0, EMPTY)
  }

  /** An order visits every stream once. */
  predicate Visits(order: seq<StreamId>, streams: map<StreamId, StreamState>) {
    && (forall i, j | 0 <= i < j < |order| :: order[i] != order[j])
    && (forall id | id in streams :: id in order)
  }

  /** 64-bit unsigned decrement. */
  function Decremented(x: nat): nat {
    if x == 0 then 0xFFFF_FFFF_FFFF_FFFF else x - 1
  }

  // ----- sealing

  /** Closes the file of a stream already taken out and hands it to the uploader. */
  function CloseAndUpload(c: Config, m: Machine, id: StreamId, st: StreamState, env: Env): (Machine, Response) {
    var m1 := m.(registry := Forgotten(m.registry, {id}));
    if id !in m.registry.files then
      (m1.(history := LostWith(m.history, id)), Fatal(FileRegistry))
    else if id in env.closeFails then
      (m1.(history := LostWith(m.history, id)), Fatal(IO))
    else
      var path := m.registry.files[id];
      var file := SealedFile(path, st.bytesConsumed, st.recordsConsumed, st.offsetsConsumed, st.createdAt);
      (m1.(inFlight := m.inFlight + 1, history := SealedAs(m.history, id, path)),
       ReadyForUpload(ToUpload(c.key(id, path), file, c.maxUploadsRetry)))
  }

  function SealStream(c: Config, m: Machine, id: StreamId, env: Env): (Machine, Response)
    requires id in m.streams
  {
    CloseAndUpload(c, m.(streams := m.streams - {id}), id, m.streams[id], env)
  }

  /** Seals the listed streams one after the other. */
  function SealAll(c: Config, m: Machine, ids: seq<StreamId>, env: Env): (Machine, seq<Response>) {
    if ids == [] then (m, [])
    else
      var (m1, rs) := SealAll(c, m, ids[..|ids| - 1], env);
      var id := ids[|ids| - 1];
      if id !in m1.streams then (m1, rs)
      else
        var (m2, r) := SealStream(c, m1, id, env);
        (m2, rs + [r])
  }

  function Seen(order: seq<StreamId>): set<StreamId> {
    set id | id in order
  }

  /** What sealing does not touch. */
  lemma {:induction false} SealAllFrame(c: Config, m: Machine, ids: seq<StreamId>, env: Env)
    ensures var (m', rs) := SealAll(c, m, ids, env);
            && m'.streams == m.streams - Seen(ids)
            && (forall id | id !in ids :: id in m'.registry.files <==> id in m.registry.files)
            && m'.uploaded == m.uploaded && m'.watermark == m.watermark
            && m'.history.consumed == m.history.consumed
            && forall r | r in rs :: r.ReadyForUpload? || r.Fatal?
  {
    if ids != [] {
      SealAllFrame(c, m, ids[..|ids| - 1], env);
      assert Seen(ids) == Seen(ids[..|ids| - 1]) + {ids[|ids| - 1]};
    }
  }

  /** The first `capacity` streams, in iteration order, created at or before the cut-off. */
  function Dormant(m: Machine, order: seq<StreamId>, cutOff: int, capacity: nat): (ids: seq<StreamId>)
    ensures |ids| <= capacity
  {
    if order == [] then []
    else
      var ids := Dormant(m, order[..|order| - 1], cutOff, capacity);
      var id := order[|order| - 1];
      if |ids| < capacity && id in m.streams && m.streams[id].createdAt <= cutOff then ids + [id] else ids
  }

  // ----- requests

  /** Lists a record under its stream and gives its partition a watermark if it has none. */
  function Noted(m: Machine, r: Record, id: StreamId, now: int): Machine {
    var st := if id in m.streams then m.streams[id] else StreamState(0, 0, map[], now);
    var st' := st.(offsetsConsumed := Pushed(st.offsetsConsumed, r.Tid(), r.offset),
                   recordsConsumed := st.recordsConsumed + 1);
    m.(streams := m.streams[id := st'],
       watermark := if r.Tid() in m.watermark then m.watermark else m.watermark[r.Tid() := r.offset],
       history := Received(m.history, id, r))
  }

  function Grown(m: Machine, id: StreamId, size: nat): Machine
    requires id in m.streams
  {
    var st := m.streams[id];
    m.(streams := m.streams[id := st.(bytesConsumed := st.bytesConsumed + size)])
  }

  predicate ShouldSeal(c: Config, m: Machine, id: StreamId)
    requires id in m.streams
  {
    m.streams[id].bytesConsumed >= c.targetFileSizeB && m.inFlight < c.maxConcurrentUploads
  }

  /** Appends a line to a stream's file; a file that has reached its size is sealed if the
      uploader has room. */
  function Appended(c: Config, m: Machine, id: StreamId, line: Bytes, env: Env): (Machine, seq<Response>)
    requires id in m.streams
  {
    var m1 := Grown(m, id, |line|);
    var m2 := m1.(registry := AfterWrite(m1.registry, id, line, env.writeFault));
    if Refused(m1.registry, id, env.writeFault) then (m2, [Fatal(IO)])
    else if ShouldSeal(c, m2, id) then
      var (m3, response) := SealStream(c, m2, id, env);
      (m3, [RecordConsumed, response])
    else (m2, [RecordConsumed])
  }

  function HandleProcessRecord(c: Config, m: Machine, r: Record, env: Env): (Machine, seq<Response>) {
    if c.route(r).None? then (m, [Fatal(Configuration)])
    else
      var id := c.route(r).value;
      var m1 := Noted(m, r, id, env.now);
      match c.line(r)
      case Err(e) => (m1, [Fatal(e)])
      case Ok(None) => (m1, [])
      case Ok(Some(line)) => Appended(c, m1, id, line, env)
  }

  /** How many more uploads may be started. */
  function Room(c: Config, m: Machine): nat {
    if m.inFlight <= c.maxConcurrentUploads then c.maxConcurrentUploads - m.inFlight else 0
  }

  /** The streams that an upload tick seals. */
  function Due(c: Config, m: Machine, env: Env): seq<StreamId> {
    Dormant(m, env.order, env.now - c.maxActiveFileTimeoutMs, Room(c, m))
  }

  function HandleUploadTick(c: Config, m: Machine, env: Env): (Machine, seq<Response>) {
    SealAll(c, m, Due(c, m, env), env)
  }

  function HandleShutdownSignal(c: Config, m: Machine, env: Env): (Machine, seq<Response>) {
    var (m', rs) := SealAll(c, m, env.order, env);
    (m', rs + [DrainAndShutdown])
  }

  function UploadedOf(up: map<TopicId, set<int>>, t: TopicId): set<int> {
    if t in up then up[t] else {}
  }

  function AsSet(s: seq<int>): set<int> {
    set x | x in s
  }

  function Merged(up: map<TopicId, set<int>>, t: TopicId, os: seq<int>): set<int> {
    UploadedOf(up, t) + AsSet(os)
  }

  function AddUploaded(up: map<TopicId, set<int>>, os: Offsets): map<TopicId, set<int>> {
    map t | t in up.Keys + os.Keys ::
      if t in os then Merged(up, t, os[t]) else UploadedOf(up, t)
  }

  function HandleUploadCompletion(m: Machine, result: UploadResult): (Machine, seq<Response>) {
    match result
    case Failure(u) =>
      if u.retries > 0 then (m, [ReadyForUpload(u.Decrement())])
      else (m.(inFlight := Decremented(m.inFlight)), [Fatal(S3Upload)])
    case Success(path, os) =>
      (m.(uploaded := AddUploaded(m.uploaded, os), inFlight := Decremented(m.inFlight)), [DeleteFile(path)])
  }

  /** The streams all of whose partitions are revoked. */
  function RevokedStreams(streams: map<StreamId, StreamState>, partitions: set<TopicId>): set<StreamId> {
    set id | id in streams && streams[id].offsetsConsumed.Keys <= partitions
  }

  /** Requests to delete the files of the given streams, in iteration order. */
  function Deletions(files: map<StreamId, Path>, gone: set<StreamId>, order: seq<StreamId>): seq<Response> {
    if order == [] then []
    else
      var id := order[|order| - 1];
      Deletions(files, gone, order[..|order| - 1])
      + if id in gone && id in files then [DeleteFile(files[id])] else []
  }

  function Revoked(m: Machine, partitions: set<TopicId>): Machine {
    var gone := RevokedStreams(m.streams, partitions);
    m.(streams := m.streams - gone,
       registry := Forgotten(m.registry, gone),
       uploaded := m.uploaded - partitions,
       watermark := m.watermark - partitions,
       history := DroppedWith(m.history, gone))
  }

  function HandleRevokePartitions(m: Machine, partitions: set<TopicId>, env: Env): (Machine, seq<Response>) {
    (Revoked(m, partitions), Deletions(m.registry.files, RevokedStreams(m.streams, partitions), env.order))
  }

  // ----- the commit scan

  /** How far the uploaded offsets of a watermarked partition reach. */
  function Reach(m: Machine, t: TopicId): int
    requires t in m.watermark
  {
    Track.FirstGap(m.watermark[t], UploadedOf(m.uploaded, t))
  }

  /** The offsets to commit: for each assigned partition with a watermark, where it advances to. */
  function CommitListOf(m: Machine, assignment: set<TopicId>): CommitList {
    map t | t in m.uploaded && t in assignment && t in m.watermark && Reach(m, t) > m.watermark[t] :: Reach(m, t)
  }

  /** What a commit leaves of one partition's uploaded offsets. */
  function Leftover(m: Machine, t: TopicId): set<int> {
    if t in m.watermark then Track.From(UploadedOf(m.uploaded, t), Reach(m, t)) else UploadedOf(m.uploaded, t)
  }

  function Committed(m: Machine, assignment: set<TopicId>): Machine {
    m.(watermark := m.watermark + CommitListOf(m, assignment),
       uploaded := map t | t in m.uploaded && t in assignment && (t in m.watermark ==> Leftover(m, t) != {})
                     :: Leftover(m, t))
  }

  /** A failed upload comes back with the request that reports it. */
  function Reported(request: Request): seq<ToUpload> {
    if request.UploadCompletion? && request.result.Failure? then [request.result.toUpload] else []
  }

  function Handle(c: Config, m: Machine, request: Request, env: Env): (Machine, seq<Response>) {
    match request
    case ProcessRecord(r) => HandleProcessRecord(c, m, r, env)
    case UploadTick => HandleUploadTick(c, m, env)
    case CommitTick(a) => (Committed(m, a), [CommitAsync(CommitListOf(m, a))])
    case UploadCompletion(result) => HandleUploadCompletion(m, result)
    case FinalCommit(a) => (Committed(m, a), [CommitSync(CommitListOf(m, a))])
    case RevokePartitions(partitions) => HandleRevokePartitions(m, partitions, env)
    case ShutdownSignal => HandleShutdownSignal(c, m, env)
  }
}
