/** How often a file is uploaded. */
module Retries {
  import opened DataModel
  import opened Config
  import opened MachineModel
  import opened MachineInvariant
  import opened SinkModel
  import opened World
  import opened WorldInvariant
  import opened AtLeastOnce
  import opened Books

  // ----- where the uploads of a step come from

  /** A file that is no longer written to stays so. */
  ghost predicate Thaws(m: Machine, m': Machine, path: Path) {
    Frozen(m, path) ==> Frozen(m', path)
  }

  /** A new upload, of a file that was still active, has all its retries; any other is a retry of the
      failed upload that is reported. */
  ghost predicate Descends(c: Config, m: Machine, reported: seq<ToUpload>, u: ToUpload) {
    || (u.retries == c.maxUploadsRetry && !Frozen(m, u.file.path))
    || (reported != [] && reported[0].retries > 0 && u == reported[0].Decrement())
  }

  ghost predicate Originates(c: Config, m: Machine, reported: seq<ToUpload>, m': Machine, us: seq<ToUpload>) {
    (forall u | u in us :: Descends(c, m, reported, u)) && (forall p :: Thaws(m, m', p))
  }

  lemma SealFrom(c: Config, m: Machine, id: StreamId, env: Env)
    requires id in m.streams
    ensures var (m', r) := SealStream(c, m, id, env);
            && (r.ReadyForUpload? ==> Descends(c, m, [], r.toUpload))
            && forall p :: Thaws(m, m', p)
  {
  }

  lemma {:induction false} SealAllFrom(c: Config, m: Machine, ids: seq<StreamId>, env: Env)
    ensures var (m', rs) := SealAll(c, m, ids, env); Originates(c, m, [], m', Uploads(rs))
  {
    if ids != [] {
      SealAllFrom(c, m, ids[..|ids| - 1], env);
      var (m1, rs) := SealAll(c, m, ids[..|ids| - 1], env);
      var id := ids[|ids| - 1];
      if id in m1.streams {
        SealFrom(c, m1, id, env);
        SealNextFrom(c, m, m1, SealStream(c, m1, id, env).0, rs, SealStream(c, m1, id, env).1);
      }
    }
  }

  lemma SealNextFrom(c: Config, m: Machine, m1: Machine, m2: Machine, rs: seq<Response>, r: Response)
    requires Originates(c, m, [], m1, Uploads(rs)) && forall p :: Thaws(m1, m2, p)
    requires r.ReadyForUpload? ==> Descends(c, m1, [], r.toUpload)
    ensures Originates(c, m, [], m2, Uploads(rs + [r]))
  {
    UploadsSnoc(rs, r);
    assert forall p :: Thaws(m, m1, p) && Thaws(m1, m2, p) ==> Thaws(m, m2, p);
    assert r.ReadyForUpload? ==> Thaws(m, m1, r.toUpload.file.path);
  }

  lemma RecordFrom(c: Config, m: Machine, r: Record, env: Env)
    ensures var (m', rs) := HandleProcessRecord(c, m, r, env);
            NoFatal(rs) ==> Originates(c, m, [], m', Uploads(rs))
  {
    ProcessCases(c, m, r, env);
    NoUploads([]);
    if c.route(r).Some? && c.line(r).Ok? {
      var id := c.route(r).value;
      var m2 := Consumed(c, m, r, id, env.now);
      ConsumedPreserves(c, m, r, id, env.now);
      assert forall p :: Thaws(m, m2, p);
      assert Originates(c, m, [], m2, []);
      if ShouldSeal(c, m2, id) {
        SealFrom(c, m2, id, env);
        SealNextFrom(c, m, m2, SealStream(c, m2, id, env).0, [RecordConsumed], SealStream(c, m2, id, env).1);
      }
    }
  }

  lemma CompletionFrom(c: Config, m: Machine, result: UploadResult)
    ensures var (m', rs) := HandleUploadCompletion(m, result);
            Originates(c, m, Reported(UploadCompletion(result)), m', Uploads(rs))
  {
    var (m', rs) := HandleUploadCompletion(m, result);
    OneResponse([], rs[0]);
    assert rs == [rs[0]];
  }

  lemma RequestFrom(c: Config, m: Machine, request: Request, env: Env)
    requires !request.RevokePartitions?
    ensures var (m', rs) := Handle(c, m, request, env);
            NoFatal(rs) ==> Originates(c, m, Reported(request), m', Uploads(rs))
  {
    match request
    case ProcessRecord(r) => RecordFrom(c, m, r, env);
    case UploadTick => SealAllFrom(c, m, Due(c, m, env), env);
    case CommitTick(a) => QuietFrom(c, m, Committed(m, a), CommitAsync(CommitListOf(m, a)));
    case FinalCommit(a) => QuietFrom(c, m, Committed(m, a), CommitSync(CommitListOf(m, a)));
    case UploadCompletion(result) => CompletionFrom(c, m, result);
    case ShutdownSignal => SignalFrom(c, m, env);
  }

  lemma QuietFrom(c: Config, m: Machine, m': Machine, r: Response)
    requires m'.registry == m.registry && !r.ReadyForUpload?
    ensures Originates(c, m, [], m', Uploads([r]))
  {
    OneResponse([], r);
  }

  lemma SignalFrom(c: Config, m: Machine, env: Env)
    ensures var (m', rs) := HandleShutdownSignal(c, m, env); Originates(c, m, [], m', Uploads(rs))
  {
    SealAllFrom(c, m, env.order, env);
    UploadsSnoc(SealAll(c, m, env.order, env).1, DrainAndShutdown);
  }

  // ----- revocations open no file

  predicate SameOrFewerFiles(m: Machine, m': Machine) {
    && m'.registry.next == m.registry.next
    && forall id | id in m'.registry.files :: id in m.registry.files && m'.registry.files[id] == m.registry.files[id]
  }

  lemma {:induction false} RevocationsThaw(m: Machine, pending: seq<set<TopicId>>, env: Env)
    ensures SameOrFewerFiles(m, AfterRevocations(m, pending, env))
  {
    if pending != [] {
      var init, last := pending[..|pending| - 1], pending[|pending| - 1];
      RevocationsThaw(m, init, env);
      var m1 := AfterRevocations(m, init, env);
      var (m2, rs) := HandleRevokePartitions(m1, last, env);
      CleanedSame(m2, rs);
    }
  }

  // ----- counting tries

  predicate Tried(w: World, e: Event, path: Path) {
    match e
    case DrainUpload(i, _) => i < |w.sink.pool| && w.sink.pool[i].file.path == path
    case LoopTurn(UploadDone(i, _), _) => i < |w.sink.pool| && w.sink.pool[i].file.path == path
    case _ => false
  }

  function Tries(ws: seq<World>, es: seq<Event>, i: nat, j: nat, path: Path): nat
    requires i <= j <= |es| < |ws|
    decreases j - i
  {
    if i == j then 0 else Tries(ws, es, i, j - 1, path) + if Tried(ws[j - 1], es[j - 1], path) then 1 else 0
  }

  /** A file that was tried n times has n retries less, and an active file has not been tried. */
  ghost predicate TriesOk(c: Config, m: Machine, pool: seq<ToUpload>, path: Path, n: nat) {
    && (forall u | u in pool && u.file.path == path :: n + u.retries == c.maxUploadsRetry)
    && (!Frozen(m, path) ==> n == 0)
    && n <= c.maxUploadsRetry + 1
  }

  lemma TurnTries(c: Config, w: World, p: Polled, m1: Machine, m2: Machine, rs: seq<Response>, w': World,
                  path: Path, n: nat)
    requires PoolOk(c, w.sink.machine, w.sink.pool) && Pollable(w.sink, p)
    requires SameOrFewerFiles(w.sink.machine, m1)
    requires Originates(c, m1, Reported(Select(w.sink, p).1), m2, Uploads(rs))
    requires w'.sink.pool == Select(w.sink, p).0.pool + Uploads(rs)
    requires SameOrFewerFiles(m2, w'.sink.machine)
    requires TriesOk(c, w.sink.machine, w.sink.pool, path, n)
    ensures TriesOk(c, w'.sink.machine, w'.sink.pool, path,
                    n + if p.UploadDone? && w.sink.pool[p.index].file.path == path then 1 else 0)
  {
    var m := w.sink.machine;
    assert Thaws(m, m1, path) && Thaws(m1, m2, path) && Thaws(m2, w'.sink.machine, path);
    if p.UploadDone? {
      WithoutOk(c, m, w.sink.pool, p.index);
    }
    forall u | u in w'.sink.pool && u.file.path == path
      ensures n + (if p.UploadDone? && w.sink.pool[p.index].file.path == path then 1 else 0) + u.retries
              == c.maxUploadsRetry
    {
      if u in Uploads(rs) {
        assert Descends(c, m1, Reported(Select(w.sink, p).1), u);
        assert Thaws(m, m1, path);
      }
    }
  }

  lemma DrainTries(c: Config, w: World, i: nat, w': World, path: Path, n: nat)
    requires PoolOk(c, w.sink.machine, w.sink.pool) && i < |w.sink.pool|
    requires w'.sink.pool == Without(w.sink.pool, i) && w'.sink.machine.registry == w.sink.machine.registry
    requires TriesOk(c, w.sink.machine, w.sink.pool, path, n)
    ensures TriesOk(c, w'.sink.machine, w'.sink.pool, path, n + if w.sink.pool[i].file.path == path then 1 else 0)
  {
    WithoutOk(c, w.sink.machine, w.sink.pool, i);
  }

  /** The number of tries of a file after a step. */
  function TriesAfter(w: World, e: Event, path: Path, n: nat): nat {
    n + if Tried(w, e, path) then 1 else 0
  }

  /** The parts of a turn and the uploads they hand out. */
  lemma TurnOrigin(c: Config, log: set<Record>, first: map<TopicId, int>, w: World, p: Polled, env: Env)
    returns (m1: Machine, s1: Sink, m2: Machine, rs: seq<Response>)
    requires WorldInv(c, log, first, w) && Enabled(log, w, LoopTurn(p, env))
    ensures s1 == Select(w.sink, p).0 && SameOrFewerFiles(w.sink.machine, m1)
    ensures NoFatal(rs) ==> Originates(c, m1, Reported(Select(w.sink, p).1), m2, Uploads(rs))
    ensures var s' := Turn(c, w.sink, w.pending, p, env);
            !s'.phase.Stopped? ==> CarriedOut(s1.(machine := m2), rs, s')
  {
    s1 := Select(w.sink, p).0;
    var request := Select(w.sink, p).1;
    m1 := AfterRevocations(s1.machine, w.pending, env);
    RevocationsThaw(w.sink.machine, w.pending, env);
    m2, rs := TurnHandled(c, log, first, w, p, env, s1, request, m1);
    RequestFrom(c, m1, request, env);
  }

  lemma LoopTries(c: Config, log: set<Record>, first: map<TopicId, int>, w: World, p: Polled, env: Env,
                  path: Path, n: nat)
    requires WorldInv(c, log, first, w) && Enabled(log, w, LoopTurn(p, env))
    requires TriesOk(c, w.sink.machine, w.sink.pool, path, n)
    ensures var w' := Next(c, log, w, LoopTurn(p, env));
            !w'.sink.phase.Stopped? ==>
              TriesOk(c, w'.sink.machine, w'.sink.pool, path, TriesAfter(w, LoopTurn(p, env), path, n))
  {
    var m1, s1, m2, rs := TurnOrigin(c, log, first, w, p, env);
    var w' := Next(c, log, w, LoopTurn(p, env));
    if !w'.sink.phase.Stopped? {
      CleanedSame(m2, rs);
      TurnTries(c, w, p, m1, m2, rs, w', path, n);
    }
  }

  lemma StepTries(c: Config, log: set<Record>, first: map<TopicId, int>, w: World, e: Event, path: Path, n: nat)
    requires WorldInv(c, log, first, w) && Enabled(log, w, e) && !e.Crash? && !w.sink.phase.Stopped?
    requires TriesOk(c, w.sink.machine, w.sink.pool, path, n)
    ensures var w' := Next(c, log, w, e);
            !w'.sink.phase.Stopped? ==> TriesOk(c, w'.sink.machine, w'.sink.pool, path, TriesAfter(w, e, path, n))
  {
    match e
    case LoopTurn(p, env) => LoopTries(c, log, first, w, p, env, path, n);
    case DrainUpload(i, ok) => DrainTries(c, w, i, Next(c, log, w, e), path, n);
    case _ =>
  }

  /** The last try may stop the sink. */
  lemma TriedHadRetries(c: Config, w: World, e: Event, path: Path, n: nat)
    requires TriesOk(c, w.sink.machine, w.sink.pool, path, n)
    ensures Tried(w, e, path) ==> n <= c.maxUploadsRetry
  {
  }

  lemma StoppedForGood(c: Config, log: set<Record>, w: World, e: Event, path: Path)
    requires Enabled(log, w, e) && !e.Crash? && w.sink.phase.Stopped?
    ensures Next(c, log, w, e).sink.phase.Stopped? && !Tried(w, e, path)
  {
  }

  ghost predicate Counted(c: Config, w: World, path: Path, n: nat) {
    && n <= c.maxUploadsRetry + 1
    && (!w.sink.phase.Stopped? ==> TriesOk(c, w.sink.machine, w.sink.pool, path, n))
  }

  lemma StepCounted(c: Config, log: set<Record>, first: map<TopicId, int>, ws: seq<World>, es: seq<Event>,
                    k: nat, path: Path, n: nat)
    requires IsRun(c, log, first, ws, es) && k < |es| && !es[k].Crash? && Counted(c, ws[k], path, n)
    ensures Counted(c, ws[k + 1], path, TriesAfter(ws[k], es[k], path, n))
  {
    ReachableOk(c, log, first, ws, es, k);
    if ws[k].sink.phase.Stopped? {
      StoppedForGood(c, log, ws[k], es[k], path);
    } else {
      TriedHadRetries(c, ws[k], es[k], path, n);
      StepTries(c, log, first, ws[k], es[k], path, n);
    }
  }

  /** The count goes on being right, whatever it was. */
  ghost predicate CountsOn(c: Config, w: World, e: Event, w': World, path: Path) {
    forall n | Counted(c, w, path, n) :: Counted(c, w', path, TriesAfter(w, e, path, n))
  }

  lemma {:induction false} RunCounted(c: Config, ws: seq<World>, es: seq<Event>, i: nat, j: nat, path: Path)
    requires i <= j <= |es| < |ws| && Counted(c, ws[i], path, 0)
    requires forall k | i <= k < j :: CountsOn(c, ws[k], es[k], ws[k + 1], path)
    ensures Counted(c, ws[j], path, Tries(ws, es, i, j, path))
    decreases j - i
  {
    if i < j {
      var k := j - 1;
      RunCounted(c, ws, es, i, k, path);
      assert CountsOn(c, ws[k], es[k], ws[k + 1], path);
    }
  }

  /** In the life of a program, from a state without outstanding uploads on, a file is tried at most one
      time more than the maximum of retries; an outstanding upload was tried before exactly as often as
      its retries are short of the maximum, so the attempt number never underflows. */
  lemma TriesAreBounded(c: Config, log: set<Record>, first: map<TopicId, int>, ws: seq<World>, es: seq<Event>,
                        i: nat, j: nat, path: Path)
    requires IsRun(c, log, first, ws, es) && i <= j <= |es| && forall k | i <= k < j :: !es[k].Crash?
    requires ws[i].sink.pool == []
    ensures Tries(ws, es, i, j, path) <= c.maxUploadsRetry + 1
    ensures !ws[j].sink.phase.Stopped? ==>
              forall u | u in ws[j].sink.pool && u.file.path == path ::
                Tries(ws, es, i, j, path) == c.maxUploadsRetry - u.retries
  {
    forall k | i <= k < j
      ensures CountsOn(c, ws[k], es[k], ws[k + 1], path)
    {
      forall n | Counted(c, ws[k], path, n)
        ensures Counted(c, ws[k + 1], path, TriesAfter(ws[k], es[k], path, n))
      {
        StepCounted(c, log, first, ws, es, k, path, n);
      }
    }
    RunCounted(c, ws, es, i, j, path);
  }
}
