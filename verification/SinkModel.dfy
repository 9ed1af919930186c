/** One turn of the event loop, and the drain that ends a run, as functions of the sink's state. */
module SinkModel {
  import opened DataModel
  import opened Config
  import opened MachineModel

  datatype Phase = Running | Draining | Stopped

  /** The state machine, the pool of outstanding uploads and the commit lists handed to the consumer.
      The sink stops when its drain is over or when a fatal error ends it. */
  datatype Sink = Sink(machine: Machine, pool: seq<ToUpload>, sent: seq<CommitList>, phase: Phase)

  /** What the event loop wakes up to. */
  datatype Polled =
    | UploadTimer
    | UploadDone(index: nat, ok: bool)
    | CommitTimer(assignment: set<TopicId>)
    | Received(record: Record)
    | Terminated

  function Without<T>(s: seq<T>, i: nat): seq<T>
    requires i < |s|
  {
    s[..i] + s[i + 1..]
  }

  function Outcome(u: ToUpload, ok: bool): UploadResult {
    if ok then Success(u.file.path, u.file.offsetsConsumed) else Failure(u)
  }

  predicate Pollable(s: Sink, p: Polled) {
    p.UploadDone? ==> p.index < |s.pool|
  }

  /** The request to handle; a finished upload leaves the pool. */
  function Select(s: Sink, p: Polled): (Sink, Request)
    requires Pollable(s, p)
  {
    match p
    case UploadTimer => (s, UploadTick)
    case UploadDone(i, ok) => (s.(pool := Without(s.pool, i)), UploadCompletion(Outcome(s.pool[i], ok)))
    case CommitTimer(assignment) => (s, CommitTick(assignment))
    case Received(r) => (s, ProcessRecord(r))
    case Terminated => (s, ShutdownSignal)
  }

  function Removed(m: Machine, path: Path): Machine {
    m.(registry := m.registry.(disk := m.registry.disk - {path}))
  }

  /** Carries out the deletions among some responses. */
  function Cleaned(m: Machine, rs: seq<Response>): Machine {
    if rs == [] then m
    else
      var m1 := Cleaned(m, rs[..|rs| - 1]);
      if rs[|rs| - 1].DeleteFile? then Removed(m1, rs[|rs| - 1].path) else m1
  }

  /** Handles the pending revocations, in order. */
  function AfterRevocations(m: Machine, pending: seq<set<TopicId>>, env: Env): Machine {
    if pending == [] then m
    else
      var m1 := AfterRevocations(m, pending[..|pending| - 1], env);
      var (m2, rs) := HandleRevokePartitions(m1, pending[|pending| - 1], env);
      Cleaned(m2, rs)
  }

  function Respond(s: Sink, r: Response): Sink {
    match r
    case RecordConsumed => s
    case ReadyForUpload(u) => s.(pool := s.pool + [u])
    case CommitAsync(tpl) => if |tpl| > 0 then s.(sent := s.sent + [tpl]) else s
    case CommitSync(tpl) => if |tpl| > 0 then s.(sent := s.sent + [tpl]) else s
    case DeleteFile(path) => s.(machine := Removed(s.machine, path))
    case DrainAndShutdown => s.(phase := Draining)
    case Fatal(_) => s.(phase := Stopped)
  }

  /** Carries out responses until one of them leaves the loop. */
  function Dispatch(s: Sink, rs: seq<Response>): Sink {
    if rs == [] then s
    else
      var s1 := Dispatch(s, rs[..|rs| - 1]);
      if s1.phase.Running? then Respond(s1, rs[|rs| - 1]) else s1
  }

  /** One turn: a request is selected, pending revocations are handled first, then the request. */
  function Turn(c: Config, s: Sink, pending: seq<set<TopicId>>, p: Polled, env: Env): Sink
    requires Pollable(s, p)
  {
    var (s1, request) := Select(s, p);
    var m1 := AfterRevocations(s1.machine, pending, env);
    var (m2, rs) := Handle(c, m1, request, env);
    Dispatch(s1.(machine := m2), rs)
  }

  /** One completion during the drain: only a fatal response matters, a retry is not uploaded again. */
  function DrainStep(s: Sink, index: nat, ok: bool): Sink
    requires index < |s.pool|
  {
    var (m, rs) := HandleUploadCompletion(s.machine, Outcome(s.pool[index], ok));
    s.(machine := m, pool := Without(s.pool, index),
       phase := if exists r | r in rs :: r.Fatal? then Stopped else s.phase)
  }

  /** The last commit of a drained sink. */
  function LastCommit(s: Sink, assignment: set<TopicId>): Sink {
    var tpl := CommitListOf(s.machine, assignment);
    s.(machine := Committed(s.machine, assignment),
       sent := if |tpl| > 0 then s.sent + [tpl] else s.sent,
       phase := Stopped)
  }

  /** The order in which the drained uploads complete: an index into what is left, and the outcome. */
  type Script = seq<(nat, bool)>

  predicate Drains(script: Script, pool: seq<ToUpload>) {
    |script| == |pool| && forall k | 0 <= k < |script| :: script[k].0 < |pool| - k
  }

  /** The drain up to a point of the script; a fatal completion ends it early. */
  function Drained(s: Sink, script: Script, n: nat): (s': Sink)
    requires s.phase.Draining? && Drains(script, s.pool) && n <= |script|
    ensures s'.phase.Draining? ==> |s'.pool| == |s.pool| - n
    ensures s'.phase.Draining? || s'.phase.Stopped?
  {
    if n == 0 then s
    else
      var s1 := Drained(s, script, n - 1);
      if s1.phase.Draining? then DrainStep(s1, script[n - 1].0, script[n - 1].1) else s1
  }

  /** Draining the pool and then, unless an upload failed for good, committing for the last time. */
  function DrainAndShutdown(s: Sink, script: Script, assignment: set<TopicId>): Sink
    requires s.phase.Draining? && Drains(script, s.pool)
  {
    var s1 := Drained(s, script, |script|);
    if s1.phase.Draining? then LastCommit(s1, assignment) else s1
  }
}
