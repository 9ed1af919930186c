/** At-least-once delivery over whole runs. */
module AtLeastOnce {
  import opened DataModel
  import opened Config
  import opened FileRegistry
  import opened Ledger
  import opened MachineModel
  import opened MachineInvariant
  import opened SinkModel
  import opened World
  import opened WorldInvariant

  // ----- one request

  /** What the surroundings guarantee of a request. */
  ghost predicate RequestOk(c: Config, log: set<Record>, first: map<TopicId, int>, store: seq<Object>,
                            m: Machine, pool: seq<ToUpload>, request: Request) {
    && PoolOk(c, m, pool + Reported(request))
    && match request
       case ProcessRecord(r) =>
         r in log && (r.Tid() !in m.watermark ==> Covered(log, first, store, r.Tid(), r.offset))
       case UploadCompletion(Success(path, os)) =>
         && Frozen(m, path) && (forall u | u in pool :: u.file.path != path)
         && forall t, o | t in os && o in os[t] :: Stored(store, t, o)
       case RevokePartitions(_) => false
       case _ => true
  }

  /** What a request leaves, together with the responses still to be carried out. */
  ghost predicate Handled(c: Config, log: set<Record>, first: map<TopicId, int>, store: seq<Object>,
                          m: Machine, pool: seq<ToUpload>, m': Machine, rs: seq<Response>) {
    && CommitsOk(log, first, store, rs) && DrainsLast(rs)
    && (NoFatal(rs) ==>
          && Core(c, log, first, store, m')
          && PoolOk(c, m', pool + Uploads(rs)) && MayDelete(m', pool + Uploads(rs), rs)
          && m.watermark.Keys <= m'.watermark.Keys)
  }

  /** Responses that neither commit nor delete. */
  predicate Plain(rs: seq<Response>) {
    forall r | r in rs :: r.RecordConsumed? || r.ReadyForUpload? || r.Fatal? || r.DrainAndShutdown?
  }

  lemma PlainHandled(c: Config, log: set<Record>, first: map<TopicId, int>, store: seq<Object>,
                     m: Machine, pool: seq<ToUpload>, m': Machine, rs: seq<Response>)
    requires Plain(rs) && DrainsLast(rs)
    requires NoFatal(rs) ==>
               && MachineInv(c, m') && FromLog(log, m') && TrackedOk(log, first, store, m')
               && PoolOk(c, m', pool + Uploads(rs)) && m.watermark.Keys <= m'.watermark.Keys
    ensures Handled(c, log, first, store, m, pool, m', rs)
  {
  }

  lemma WatermarkAdded(log: set<Record>, first: map<TopicId, int>, store: seq<Object>, m: Machine, m': Machine,
                       t: TopicId, offset: int)
    requires TrackedOk(log, first, store, m)
    requires t !in m.watermark ==> Covered(log, first, store, t, offset)
    requires m'.uploaded == m.uploaded
    requires m'.watermark == if t in m.watermark then m.watermark else m.watermark[t := offset]
    ensures TrackedOk(log, first, store, m') && t in m'.watermark && m.watermark.Keys <= m'.watermark.Keys
  {
  }

  lemma HandledRecord(c: Config, log: set<Record>, first: map<TopicId, int>, store: seq<Object>,
                      m: Machine, pool: seq<ToUpload>, r: Record, env: Env)
    requires Core(c, log, first, store, m) && RequestOk(c, log, first, store, m, pool, ProcessRecord(r))
    ensures var (m', rs) := HandleProcessRecord(c, m, r, env);
            && Handled(c, log, first, store, m, pool, m', rs)
            && (NoFatal(rs) ==> r.Tid() in m'.watermark)
  {
    assert pool + [] == pool;
    var m', rs := ProcessParts(c, log, m, r, env, pool);
    if NoFatal(rs) {
      WatermarkAdded(log, first, store, m, m', r.Tid(), r.offset);
    }
    PlainHandled(c, log, first, store, m, pool, m', rs);
  }

  lemma ProcessParts(c: Config, log: set<Record>, m: Machine, r: Record, env: Env, pool: seq<ToUpload>)
    returns (m': Machine, rs: seq<Response>)
    requires MachineInv(c, m) && PoolOk(c, m, pool) && FromLog(log, m) && r in log
    ensures (m', rs) == HandleProcessRecord(c, m, r, env) && Plain(rs) && DrainsLast(rs)
    ensures NoFatal(rs) ==>
              && MachineInv(c, m') && PoolOk(c, m', pool + Uploads(rs))
              && FromLog(log, m') && m'.uploaded == m.uploaded
              && m'.watermark == if r.Tid() in m.watermark then m.watermark else m.watermark[r.Tid() := r.offset]
  {
    m', rs := HandleProcessRecord(c, m, r, env).0, HandleProcessRecord(c, m, r, env).1;
    ProcessInv(c, m, r, env, pool);
    ProcessTracked(c, log, m, r, env);
    ProcessResponses(c, m, r, env);
    NoDrain(rs);
  }

  lemma ProcessResponses(c: Config, m: Machine, r: Record, env: Env)
    ensures forall x | x in HandleProcessRecord(c, m, r, env).1 :: x.RecordConsumed? || x.ReadyForUpload? || x.Fatal?
  {
  }

  lemma NoDrain(rs: seq<Response>)
    requires forall x | x in rs :: x.RecordConsumed? || x.ReadyForUpload? || x.Fatal?
    ensures Plain(rs) && DrainsLast(rs)
  {
    assert forall i | 0 <= i < |rs| :: rs[i] in rs;
  }

  lemma HandledTick(c: Config, log: set<Record>, first: map<TopicId, int>, store: seq<Object>,
                    m: Machine, pool: seq<ToUpload>, ids: seq<StreamId>, env: Env)
    requires Core(c, log, first, store, m) && PoolOk(c, m, pool)
    ensures var (m', rs) := SealAll(c, m, ids, env);
            && Handled(c, log, first, store, m, pool, m', rs)
            && Handled(c, log, first, store, m, pool, m', rs + [DrainAndShutdown])
  {
    var m', rs := TickParts(c, log, m, ids, env, pool);
    ThenDrain(rs);
    PlainHandled(c, log, first, store, m, pool, m', rs);
    PlainHandled(c, log, first, store, m, pool, m', rs + [DrainAndShutdown]);
  }

  lemma TickParts(c: Config, log: set<Record>, m: Machine, ids: seq<StreamId>, env: Env, pool: seq<ToUpload>)
    returns (m': Machine, rs: seq<Response>)
    requires MachineInv(c, m) && PoolOk(c, m, pool) && FromLog(log, m)
    ensures (m', rs) == SealAll(c, m, ids, env)
    ensures forall r | r in rs :: r.ReadyForUpload? || r.Fatal?
    ensures MachineInv(c, m') && PoolOk(c, m', pool + Uploads(rs)) && FromLog(log, m')
    ensures m'.uploaded == m.uploaded && m'.watermark == m.watermark
  {
    m', rs := SealAll(c, m, ids, env).0, SealAll(c, m, ids, env).1;
    SealAllInv(c, m, ids, env, pool);
    SealAllFromLog(c, log, m, ids, env);
    SealAllFrame(c, m, ids, env);
  }

  lemma ThenDrain(rs: seq<Response>)
    requires forall r | r in rs :: r.ReadyForUpload? || r.Fatal?
    ensures var all := rs + [DrainAndShutdown];
            && Plain(all) && DrainsLast(all) && Plain(rs) && DrainsLast(rs) && Uploads(all) == Uploads(rs)
            && (NoFatal(all) ==> NoFatal(rs))
  {
    UploadsSnoc(rs, DrainAndShutdown);
    assert forall r | r in rs :: r in rs + [DrainAndShutdown];
  }

  lemma HandledCommit(c: Config, log: set<Record>, first: map<TopicId, int>, store: seq<Object>,
                      m: Machine, pool: seq<ToUpload>, assignment: set<TopicId>, r: Response)
    requires Core(c, log, first, store, m) && PoolOk(c, m, pool)
    requires IsCommit(r, CommitListOf(m, assignment))
    ensures Handled(c, log, first, store, m, pool, Committed(m, assignment), [r])
  {
    CommitOk(log, first, store, m, assignment);
    var m' := Committed(m, assignment);
    CompletedCore(c, log, first, store, m, m', pool);
    OneResponse(pool, r);
    CommitsOne(c, log, first, store, m, pool, m', r, CommitListOf(m, assignment));
  }

  lemma CommitsOne(c: Config, log: set<Record>, first: map<TopicId, int>, store: seq<Object>, m: Machine,
                   pool: seq<ToUpload>, m': Machine, r: Response, tpl: CommitList)
    requires Core(c, log, first, store, m') && PoolOk(c, m', pool) && m.watermark.Keys <= m'.watermark.Keys
    requires IsCommit(r, tpl) && AllCovered(log, first, store, tpl) && pool + Uploads([r]) == pool
    ensures Handled(c, log, first, store, m, pool, m', [r])
  {
  }

  lemma OneResponse(pool: seq<ToUpload>, r: Response)
    ensures pool + Uploads([r]) == if r.ReadyForUpload? then pool + [r.toUpload] else pool
  {
    UploadsSnoc([], r);
    assert [] + [r] == [r];
  }

  lemma HandledSuccess(c: Config, log: set<Record>, first: map<TopicId, int>, store: seq<Object>,
                       m: Machine, pool: seq<ToUpload>, path: Path, os: Offsets, env: Env)
    requires Core(c, log, first, store, m)
    requires RequestOk(c, log, first, store, m, pool, UploadCompletion(Success(path, os)))
    ensures var (m', rs) := HandleUploadCompletion(m, Success(path, os));
            Handled(c, log, first, store, m, pool, m', rs)
  {
    var m' := HandleUploadCompletion(m, Success(path, os)).0;
    UploadedTracked(log, first, store, m, os);
    assert pool + [] == pool;
    CompletedCore(c, log, first, store, m, m', pool);
    OneResponse(pool, DeleteFile(path));
    DeletesOne(c, log, first, store, m, pool, m', path);
  }

  /** Completions and commits touch only the uploaded sets, the watermarks and the counter. */
  lemma CompletedCore(c: Config, log: set<Record>, first: map<TopicId, int>, store: seq<Object>, m: Machine,
                      m': Machine, pool: seq<ToUpload>)
    requires Core(c, log, first, store, m) && PoolOk(c, m, pool) && SameFiles(m, m')
    requires TrackedOk(log, first, store, m')
    ensures Core(c, log, first, store, m') && PoolOk(c, m', pool)
  {
    SameFilesInv(c, log, m, m', pool);
  }

  lemma DeletesOne(c: Config, log: set<Record>, first: map<TopicId, int>, store: seq<Object>, m: Machine,
                   pool: seq<ToUpload>, m': Machine, path: Path)
    requires Core(c, log, first, store, m') && PoolOk(c, m', pool) && pool + Uploads([DeleteFile(path)]) == pool
    requires Frozen(m', path) && (forall u | u in pool :: u.file.path != path) && m'.watermark == m.watermark
    ensures Handled(c, log, first, store, m, pool, m', [DeleteFile(path)])
  {
  }

  lemma HandledFailure(c: Config, log: set<Record>, first: map<TopicId, int>, store: seq<Object>,
                       m: Machine, pool: seq<ToUpload>, u: ToUpload, env: Env)
    requires Core(c, log, first, store, m)
    requires RequestOk(c, log, first, store, m, pool, UploadCompletion(Failure(u)))
    ensures var (m', rs) := HandleUploadCompletion(m, Failure(u));
            Handled(c, log, first, store, m, pool, m', rs)
  {
    var (m', rs) := HandleUploadCompletion(m, Failure(u));
    if u.retries > 0 {
      OneResponse(pool, ReadyForUpload(u.Decrement()));
      Retried(c, m, pool, u);
    } else {
      assert rs[0].Fatal? && rs[0] in rs;
    }
  }

  lemma Retried(c: Config, m: Machine, pool: seq<ToUpload>, u: ToUpload)
    requires PoolOk(c, m, pool + [u]) && u.retries > 0
    ensures PoolOk(c, m, pool + [u.Decrement()])
  {
    var old_, new_ := pool + [u], pool + [u.Decrement()];
    forall x | x in new_
      ensures UploadOk(c, m, x)
    {
      assert u in old_ && UploadOk(c, m, u);
      assert x in pool ==> x in old_;
    }
    assert forall i | 0 <= i < |old_| :: new_[i].file.path == old_[i].file.path;
  }

  lemma RequestHandled(c: Config, log: set<Record>, first: map<TopicId, int>, store: seq<Object>,
                       m: Machine, pool: seq<ToUpload>, request: Request, env: Env)
    requires Core(c, log, first, store, m) && RequestOk(c, log, first, store, m, pool, request)
    ensures var (m', rs) := Handle(c, m, request, env);
            && Handled(c, log, first, store, m, pool, m', rs)
            && (request.ProcessRecord? && NoFatal(rs) ==> request.record.Tid() in m'.watermark)
  {
    assert pool + [] == pool;
    match request
    case ProcessRecord(r) => HandledRecord(c, log, first, store, m, pool, r, env);
    case UploadTick =>
      HandledTick(c, log, first, store, m, pool,
                  Due(c, m, env), env);
    case CommitTick(a) => HandledCommit(c, log, first, store, m, pool, a, CommitAsync(CommitListOf(m, a)));
    case FinalCommit(a) => HandledCommit(c, log, first, store, m, pool, a, CommitSync(CommitListOf(m, a)));
    case UploadCompletion(Success(path, os)) => HandledSuccess(c, log, first, store, m, pool, path, os, env);
    case UploadCompletion(Failure(u)) => HandledFailure(c, log, first, store, m, pool, u, env);
    case ShutdownSignal => HandledTick(c, log, first, store, m, pool, env.order, env);
  }

  // ----- one turn of the loop

  lemma WithoutOk(c: Config, m: Machine, pool: seq<ToUpload>, i: nat)
    requires PoolOk(c, m, pool) && i < |pool|
    ensures PoolOk(c, m, Without(pool, i) + [pool[i]]) && PoolOk(c, m, Without(pool, i))
    ensures forall u | u in Without(pool, i) :: u in pool && u.file.path != pool[i].file.path
    ensures UploadOk(c, m, pool[i])
  {
    var rest := Without(pool, i);
    assert forall k | 0 <= k < |rest| :: rest[k] == pool[if k < i then k else k + 1];
    assert pool[i] in pool;
  }

  /** An upload that succeeds is stored before its completion is handled. */
  lemma SuccessStored(c: Config, log: set<Record>, first: map<TopicId, int>, store: seq<Object>, m: Machine,
                      u: ToUpload)
    requires Core(c, log, first, store, m) && UploadOk(c, m, u)
    ensures var store' := store + [ObjectOf(m, u)];
            && Core(c, log, first, store', m) && ObjectOk(c, log, ObjectOf(m, u))
            && forall t, o | t in u.file.offsetsConsumed && o in u.file.offsetsConsumed[t] :: Stored(store', t, o)
  {
    ObjectStored(c, log, m, u);
    TrackedGrows(log, first, store, [ObjectOf(m, u)], m);
    var os := u.file.offsetsConsumed;
    forall t, o | t in os && o in os[t]
      ensures Stored(store + [ObjectOf(m, u)], t, o)
    {
      assert [ObjectOf(m, u)][0] == ObjectOf(m, u);
      StoredGrows(store, [ObjectOf(m, u)], t, o);
    }
  }

  lemma DurableGrows(c: Config, log: set<Record>, first: map<TopicId, int>, w: World, o: Object, w': World)
    requires Durable(c, log, first, w) && ObjectOk(c, log, o)
    requires w' == w.(store := w.store + [o])
    ensures Durable(c, log, first, w')
    ensures PositionsOk(log, first, w) ==> PositionsOk(log, first, w')
  {
    CoveredGrows(log, first, w.store, [o]);
  }

  /** The world when the request has been selected: a successful upload is in the store. */
  function AfterSelect(w: World, p: Polled): World
    requires Pollable(w.sink, p)
  {
    w.(store := if p.UploadDone? then StoreAfter(w, p.index, p.ok) else w.store)
  }

  lemma SelectOk(c: Config, log: set<Record>, first: map<TopicId, int>, w: World, p: Polled)
    requires Durable(c, log, first, w) && Live(c, log, first, w) && Pollable(w.sink, p)
    ensures var w' := AfterSelect(w, p);
            && Durable(c, log, first, w') && Core(c, log, first, w'.store, w'.sink.machine)
            && PositionsOk(log, first, w')
            && (p.UploadDone? ==>
                  PoolOk(c, w.sink.machine, Without(w.sink.pool, p.index) + [w.sink.pool[p.index]]))
            && (p.UploadDone? && p.ok ==>
                  var os := w.sink.pool[p.index].file.offsetsConsumed;
                  forall t, o | t in os && o in os[t] :: Stored(w'.store, t, o))
  {
    if p.UploadDone? {
      WithoutOk(c, w.sink.machine, w.sink.pool, p.index);
      if p.ok {
        var u := w.sink.pool[p.index];
        SuccessStored(c, log, first, w.store, w.sink.machine, u);
        DurableGrows(c, log, first, w, ObjectOf(w.sink.machine, u), AfterSelect(w, p));
      }
    }
  }

  /** The next record delivered extends what is covered up to the consumer's position. */
  lemma DeliveredCovered(log: set<Record>, first: map<TopicId, int>, store: seq<Object>, position: int, r: Record)
    requires NextRecord(log, r.Tid(), position, r) && Covered(log, first, store, r.Tid(), position)
    ensures Covered(log, first, store, r.Tid(), r.offset)
  {
  }

  /** After the pending revocations, the request is one that the state machine can expect. */
  lemma RequestExpected(c: Config, log: set<Record>, first: map<TopicId, int>, w: World, p: Polled, env: Env)
    requires Durable(c, log, first, w) && Live(c, log, first, w) && Enabled(log, w, LoopTurn(p, env))
    ensures var (s1, request) := Select(w.sink, p);
            var m1 := AfterRevocations(s1.machine, w.pending, env);
            && Core(c, log, first, AfterSelect(w, p).store, m1)
            && RequestOk(c, log, first, AfterSelect(w, p).store, m1, s1.pool, request)
            && (forall t :: t in m1.watermark <==> t in w.sink.machine.watermark && Unseen(w.pending, t))
  {
    SelectOk(c, log, first, w, p);
    var (s1, request) := Select(w.sink, p);
    var store := AfterSelect(w, p).store;
    assert s1.pool + [] == s1.pool;
    if p.UploadDone? {
      var u := w.sink.pool[p.index];
      RevocationsOk(c, log, first, store, s1.machine, s1.pool + [u], w.pending, env);
      var m1 := AfterRevocations(s1.machine, w.pending, env);
      PoolSplit(c, m1, s1.pool, u);
    } else {
      RevocationsOk(c, log, first, store, s1.machine, s1.pool, w.pending, env);
      var m1 := AfterRevocations(s1.machine, w.pending, env);
      if p.Received? && p.record.Tid() !in m1.watermark {
        assert Unwatermarked(w.sink.machine, w.pending, p.record.Tid());
        DeliveredCovered(log, first, store, w.position[p.record.Tid()], p.record);
      }
    }
  }

  lemma PoolSplit(c: Config, m: Machine, pool: seq<ToUpload>, u: ToUpload)
    requires PoolOk(c, m, pool + [u])
    ensures PoolOk(c, m, pool) && Frozen(m, u.file.path) && forall x | x in pool :: x.file.path != u.file.path
  {
    var all := pool + [u];
    assert u in all && UploadOk(c, m, u);
    assert forall i | 0 <= i < |pool| :: all[i] == pool[i] && all[|pool|] == u;
    assert forall x | x in pool :: x in all;
  }

  lemma CleanedCore(c: Config, log: set<Record>, first: map<TopicId, int>, store: seq<Object>, m: Machine,
                    pool: seq<ToUpload>, rs: seq<Response>)
    requires Core(c, log, first, store, m) && PoolOk(c, m, pool) && MayDelete(m, pool, rs)
    ensures Core(c, log, first, store, Cleaned(m, rs)) && PoolOk(c, Cleaned(m, rs), pool)
    ensures Cleaned(m, rs).watermark == m.watermark
  {
    CleanedOk(c, m, pool, rs);
    CleanedSame(m, rs);
  }

  /** Carrying out the responses of a handled request. */
  lemma FinishTurn(c: Config, log: set<Record>, first: map<TopicId, int>, w: World, m1: Machine, s: Sink,
                   rs: seq<Response>, w': World)
    requires Durable(c, log, first, w) && Handled(c, log, first, w.store, m1, s.pool, s.machine, rs)
    requires s.phase.Running? && s.sent == w.sink.sent
    requires w'.sink == Dispatch(s, rs) && w'.store == w.store && w'.committed == w.committed
    ensures Durable(c, log, first, w')
    ensures !w'.sink.phase.Stopped? ==>
              && NoFatal(rs) && Core(c, log, first, w'.store, w'.sink.machine)
              && PoolOk(c, w'.sink.machine, w'.sink.pool)
              && w'.sink.machine.watermark == s.machine.watermark
  {
    Dispatched(log, first, w.store, s, rs);
    if !w'.sink.phase.Stopped? {
      CleanedCore(c, log, first, w.store, s.machine, s.pool + Uploads(rs), rs);
    }
  }

  /** The parts of a turn: the selection, the state after the revocations, and the responses. */
  lemma TurnParts(c: Config, log: set<Record>, first: map<TopicId, int>, w: World, p: Polled, env: Env)
    returns (w1: World, m1: Machine, s1: Sink, m2: Machine, rs: seq<Response>)
    requires WorldInv(c, log, first, w) && Enabled(log, w, LoopTurn(p, env))
    ensures Durable(c, log, first, w1) && PositionsOk(log, first, w1) && w1 == AfterSelect(w, p)
    ensures Handled(c, log, first, w1.store, m1, s1.pool, m2, rs)
    ensures p.Received? && NoFatal(rs) ==> p.record.Tid() in m2.watermark
    ensures forall t :: t in m1.watermark <==> t in w.sink.machine.watermark && Unseen(w.pending, t)
    ensures s1 == Select(w.sink, p).0
    ensures Turn(c, w.sink, w.pending, p, env) == Dispatch(s1.(machine := m2), rs)
  {
    w1 := AfterSelect(w, p);
    SelectOk(c, log, first, w, p);
    RequestExpected(c, log, first, w, p, env);
    s1 := Select(w.sink, p).0;
    var request := Select(w.sink, p).1;
    m1 := AfterRevocations(s1.machine, w.pending, env);
    RequestHandled(c, log, first, w1.store, m1, s1.pool, request, env);
    m2, rs := Handle(c, m1, request, env).0, Handle(c, m1, request, env).1;
  }

  /** What a turn changes in the world. */
  lemma TurnNext(c: Config, log: set<Record>, w: World, p: Polled, env: Env)
    requires Enabled(log, w, LoopTurn(p, env))
    ensures Next(c, log, w, LoopTurn(p, env))
            == AfterSelect(w, p).(sink := Turn(c, w.sink, w.pending, p, env), pending := [],
                   landed := if p.UploadDone? then LandedAfter(w, p.index, p.ok) else w.landed,
                   position := if p.Received? then w.position[p.record.Tid() := p.record.offset + 1] else w.position)
  {
  }

  lemma TurnOk(c: Config, log: set<Record>, first: map<TopicId, int>, w: World, p: Polled, env: Env)
    requires WorldInv(c, log, first, w) && Enabled(log, w, LoopTurn(p, env))
    ensures WorldInv(c, log, first, Next(c, log, w, LoopTurn(p, env)))
  {
    var w1, m1, s1, m2, rs := TurnParts(c, log, first, w, p, env);
    TurnNext(c, log, w, p, env);
    TurnFinished(c, log, first, w, w1, m1, s1, m2, rs, p, Next(c, log, w, LoopTurn(p, env)));
  }

  lemma TurnFinished(c: Config, log: set<Record>, first: map<TopicId, int>, w: World, w1: World, m1: Machine,
                     s1: Sink, m2: Machine, rs: seq<Response>, p: Polled, w': World)
    requires Durable(c, log, first, w1) && PositionsOk(log, first, w1) && w1 == w.(store := w1.store)
    requires Handled(c, log, first, w1.store, m1, s1.pool, m2, rs)
    requires p.Received? && NoFatal(rs) ==> p.record.Tid() in m2.watermark
    requires forall t :: t in m1.watermark <==> t in w.sink.machine.watermark && Unseen(w.pending, t)
    requires s1.phase.Running? && s1.sent == w.sink.sent
    requires w' == w1.(sink := Dispatch(s1.(machine := m2), rs), pending := [], landed := w'.landed,
                       position := if p.Received? then w.position[p.record.Tid() := p.record.offset + 1]
                                   else w.position)
    ensures WorldInv(c, log, first, w')
  {
    FinishTurn(c, log, first, w1, m1, s1.(machine := m2), rs, w');
    if !w'.sink.phase.Stopped? {
      TurnPositions(log, first, w1, m1, w', p);
    }
  }

  /** After a turn, every owned partition without a watermark is still read from a covered position. */
  lemma TurnPositions(log: set<Record>, first: map<TopicId, int>, w: World, m1: Machine, w': World, p: Polled)
    requires PositionsOk(log, first, w)
    requires forall t :: t in m1.watermark <==> t in w.sink.machine.watermark && Unseen(w.pending, t)
    requires m1.watermark.Keys <= w'.sink.machine.watermark.Keys
    requires p.Received? ==> p.record.Tid() in w'.sink.machine.watermark
    requires w'.owned == w.owned && w'.pending == [] && w'.store == w.store
    requires w'.position == if p.Received? then w.position[p.record.Tid() := p.record.offset + 1] else w.position
    ensures PositionsOk(log, first, w')
  {
    forall t | t in w'.owned && Unwatermarked(w'.sink.machine, [], t)
      ensures Covered(log, first, w'.store, t, w'.position[t])
    {
      assert Unwatermarked(w.sink.machine, w.pending, t);
    }
  }

  // ----- the other events

  lemma DrainOk(c: Config, log: set<Record>, first: map<TopicId, int>, w: World, i: nat, ok: bool)
    requires WorldInv(c, log, first, w) && Enabled(log, w, DrainUpload(i, ok))
    ensures WorldInv(c, log, first, Next(c, log, w, DrainUpload(i, ok)))
  {
    var w1, m' := DrainParts(c, log, first, w, i, ok);
    var w' := Next(c, log, w, DrainUpload(i, ok));
    assert w'.sink.machine == m' && w'.store == w1.store;
    assert PositionsOk(log, first, w');
  }

  lemma CompletionTracked(log: set<Record>, first: map<TopicId, int>, store: seq<Object>, m: Machine, u: ToUpload,
                          ok: bool)
    requires TrackedOk(log, first, store, m)
    requires ok ==> var os := u.file.offsetsConsumed; forall t, o | t in os && o in os[t] :: Stored(store, t, o)
    ensures var m' := HandleUploadCompletion(m, Outcome(u, ok)).0;
            SameFiles(m, m') && TrackedOk(log, first, store, m') && m'.watermark == m.watermark
  {
    if ok {
      UploadedTracked(log, first, store, m, u.file.offsetsConsumed);
    }
  }

  lemma DrainParts(c: Config, log: set<Record>, first: map<TopicId, int>, w: World, i: nat, ok: bool)
    returns (w1: World, m': Machine)
    requires WorldInv(c, log, first, w) && Enabled(log, w, DrainUpload(i, ok))
    ensures w1 == AfterSelect(w, UploadDone(i, ok))
    ensures Durable(c, log, first, w1) && PositionsOk(log, first, w1)
    ensures m' == HandleUploadCompletion(w.sink.machine, Outcome(w.sink.pool[i], ok)).0
    ensures Core(c, log, first, w1.store, m') && PoolOk(c, m', Without(w.sink.pool, i))
    ensures m'.watermark == w.sink.machine.watermark
  {
    var p := UploadDone(i, ok);
    w1 := AfterSelect(w, p);
    SelectOk(c, log, first, w, p);
    WithoutOk(c, w.sink.machine, w.sink.pool, i);
    var u, m := w.sink.pool[i], w.sink.machine;
    m' := HandleUploadCompletion(m, Outcome(u, ok)).0;
    CompletionTracked(log, first, w1.store, m, u, ok);
    CompletedCore(c, log, first, w1.store, m, m', Without(w.sink.pool, i));
  }

  lemma FinalOk(c: Config, log: set<Record>, first: map<TopicId, int>, w: World, assignment: set<TopicId>)
    requires WorldInv(c, log, first, w) && Enabled(log, w, FinalTurn(assignment))
    ensures WorldInv(c, log, first, Next(c, log, w, FinalTurn(assignment)))
  {
    CommitOk(log, first, w.store, w.sink.machine, assignment);
  }

  lemma AssignOk(c: Config, log: set<Record>, first: map<TopicId, int>, w: World, t: TopicId)
    requires WorldInv(c, log, first, w) && Enabled(log, w, Assign(t))
    ensures WorldInv(c, log, first, Next(c, log, w, Assign(t)))
  {
    var w' := Next(c, log, w, Assign(t));
    assert Covered(log, first, w.store, t, w.committed[t]);
    assert PositionsOk(log, first, w');
  }

  lemma RevokeOk(c: Config, log: set<Record>, first: map<TopicId, int>, w: World, ts: set<TopicId>)
    requires WorldInv(c, log, first, w) && Enabled(log, w, Revoke(ts))
    ensures WorldInv(c, log, first, Next(c, log, w, Revoke(ts)))
  {
    var w' := Next(c, log, w, Revoke(ts));
    forall t | t in w'.owned && Unwatermarked(w'.sink.machine, w'.pending, t)
      ensures Unwatermarked(w.sink.machine, w.pending, t)
    {
      if t in w.sink.machine.watermark {
        var seen :| seen in w'.pending && t in seen;
        assert seen in w.pending;
      }
    }
  }

  lemma CrashOk(c: Config, log: set<Record>, first: map<TopicId, int>, w: World, next: Path)
    requires WorldInv(c, log, first, w) && Enabled(log, w, Crash(next))
    ensures WorldInv(c, log, first, Next(c, log, w, Crash(next)))
  {
  }

  /** What the other members of the group store and commit. */
  lemma OthersOk(c: Config, log: set<Record>, first: map<TopicId, int>, w: World, e: Event)
    requires WorldInv(c, log, first, w) && e.Others? && Sound(c, log, first, w, e)
    ensures WorldInv(c, log, first, Next(c, log, w, e))
  {
    var w' := Next(c, log, w, e);
    CoveredGrows(log, first, w.store, e.objects);
    assert forall t | t in e.commits :: Covered(log, first, w'.store, t, e.commits[t]);
    assert w'.committed.Keys == first.Keys;
    if !w.sink.phase.Stopped? {
      TrackedGrows(log, first, w.store, e.objects, w.sink.machine);
      assert PositionsOk(log, first, w');
    }
  }

  /** Every event keeps the invariant. */
  lemma StepOk(c: Config, log: set<Record>, first: map<TopicId, int>, w: World, e: Event)
    requires WorldInv(c, log, first, w) && Enabled(log, w, e) && Sound(c, log, first, w, e)
    ensures WorldInv(c, log, first, Next(c, log, w, e))
  {
    match e
    case Assign(t) => AssignOk(c, log, first, w, t);
    case Revoke(ts) => RevokeOk(c, log, first, w, ts);
    case LoopTurn(p, env) => TurnOk(c, log, first, w, p, env);
    case DrainUpload(i, ok) => DrainOk(c, log, first, w, i, ok);
    case FinalTurn(a) => FinalOk(c, log, first, w, a);
    case BrokerApplies(i) => assert w.sink.sent[i] in w.sink.sent;
    case Crash(next) => CrashOk(c, log, first, w, next);
    case Others(_, _) => OthersOk(c, log, first, w, e);
  }

  lemma {:induction false} ReachableOk(c: Config, log: set<Record>, first: map<TopicId, int>,
                                       ws: seq<World>, es: seq<Event>, i: nat)
    requires IsRun(c, log, first, ws, es) && i < |ws|
    ensures WorldInv(c, log, first, ws[i])
  {
    if i > 0 {
      ReachableOk(c, log, first, ws, es, i - 1);
      StepOk(c, log, first, ws[i - 1], es[i - 1]);
    }
  }

  // ----- at-least-once

  /** An object delivers a record: the record is one of those whose lines it holds, so that it lists the record's
      offset and, unless the serializer skips the record, has its line, under the key of the record's stream. */
  ghost predicate Delivers(c: Config, o: Object, r: Record) {
    && r in o.records && HoldsLines(c, o)
    && r.offset in Listed(o.offsets, r.Tid())
    && Accepted(c, r) && o.key == KeyFor(c, r, o.path)
    && exists before, after :: o.content == before + LineOf(c, r) + after
  }

  /** A record is safe. */
  ghost predicate Delivered(c: Config, store: seq<Object>, r: Record) {
    exists k | 0 <= k < |store| :: Delivers(c, store[k], r)
  }

  lemma StoredDelivers(c: Config, log: set<Record>, store: seq<Object>, r: Record)
    requires OneRecordAnOffset(log) && r in log && Stored(store, r.Tid(), r.offset)
    requires forall o | o in store :: ObjectOk(c, log, o)
    ensures Delivered(c, store, r)
  {
    var k :| 0 <= k < |store| && r.offset in Listed(store[k].offsets, r.Tid());
    assert store[k] in store && ObjectOk(c, log, store[k]);
    OffsetsHold(store[k].records, r.Tid(), r.offset);
    var listed :| listed in store[k].records && listed.Tid() == r.Tid() && listed.offset == r.offset;
    assert listed == r;
    var before, after := ContentHolds(c, store[k].records, r);
    assert Delivers(c, store[k], r);
  }

  /** In every run - whatever the interleaving of records, timers, upload outcomes, rebalances, commits
      that are lost or late, crashes and shutdowns - each record from a partition's initial position up
      to the group's committed offset is safe in the store. The same holds of every commit that may
      still reach the broker. */
  lemma AtLeastOnce(c: Config, log: set<Record>, first: map<TopicId, int>, ws: seq<World>, es: seq<Event>,
                    i: nat, r: Record)
    requires OneRecordAnOffset(log) && IsRun(c, log, first, ws, es) && i < |ws|
    requires r in log && r.Tid() in first && first[r.Tid()] <= r.offset
    ensures r.Tid() in ws[i].committed
    ensures r.offset < ws[i].committed[r.Tid()] ==> Delivered(c, ws[i].store, r)
    ensures forall tpl | tpl in ws[i].sink.sent && r.Tid() in tpl && r.offset < tpl[r.Tid()] ::
              Delivered(c, ws[i].store, r)
  {
    ReachableOk(c, log, first, ws, es, i);
    var w := ws[i];
    if r.offset < w.committed[r.Tid()] {
      assert Covered(log, first, w.store, r.Tid(), w.committed[r.Tid()]);
      StoredDelivers(c, log, w.store, r);
    }
    forall tpl | tpl in w.sink.sent && r.Tid() in tpl && r.offset < tpl[r.Tid()]
      ensures Delivered(c, w.store, r)
    {
      assert AllCovered(log, first, w.store, tpl) && Covered(log, first, w.store, r.Tid(), tpl[r.Tid()]);
      StoredDelivers(c, log, w.store, r);
    }
  }

  // ----- the store as a bucket

  /** The bucket the objects are put in: one object a key, the last one put there. */
  function Bucket(store: seq<Object>): map<Bytes, Object> {
    if store == [] then map[] else Bucket(store[..|store| - 1])[store[|store| - 1].key := store[|store| - 1]]
  }

  /** An object is not replaced by a later one. */
  predicate Lasts(store: seq<Object>, k: nat)
    requires k < |store|
  {
    forall j | k < j < |store| && store[j].key == store[k].key :: store[j] == store[k]
  }

  lemma {:induction false} BucketHolds(store: seq<Object>, k: nat)
    requires k < |store| && Lasts(store, k)
    ensures store[k].key in Bucket(store) && Bucket(store)[store[k].key] == store[k]
  {
    var init := store[..|store| - 1];
    if k < |store| - 1 {
      assert init[k] == store[k] && forall j | 0 <= j < |init| :: init[j] == store[j];
      BucketHolds(init, k);
    }
  }

  /** If no two objects are stored under one key, the records below the committed offsets are safe in the bucket. */
  lemma AtLeastOnceInBucket(c: Config, log: set<Record>, first: map<TopicId, int>, ws: seq<World>, es: seq<Event>,
                            i: nat, r: Record)
    requires OneRecordAnOffset(log) && IsRun(c, log, first, ws, es) && i < |ws|
    requires r in log && r.Tid() in first && first[r.Tid()] <= r.offset
    requires forall k | 0 <= k < |ws[i].store| :: Lasts(ws[i].store, k)
    ensures r.Tid() in ws[i].committed
    ensures r.offset < ws[i].committed[r.Tid()] ==>
              exists key :: key in Bucket(ws[i].store) && Delivers(c, Bucket(ws[i].store)[key], r)
  {
    AtLeastOnce(c, log, first, ws, es, i, r);
    if r.offset < ws[i].committed[r.Tid()] {
      var k :| 0 <= k < |ws[i].store| && Delivers(c, ws[i].store[k], r);
      BucketHolds(ws[i].store, k);
    }
  }
}
