/** No file is left behind on the disk while the event loop runs. */
module Disk {
  import opened DataModel
  import opened Config
  import opened Ledger
  import opened MachineModel
  import opened MachineInvariant
  import opened SinkModel
  import opened World
  import opened WorldInvariant
  import opened AtLeastOnce
  import opened Books

  predicate Active(m: Machine, path: Path) {
    exists id :: id in m.registry.files && m.registry.files[id] == path
  }

  predicate Awaits(us: seq<ToUpload>, path: Path) {
    exists u :: u in us && u.file.path == path
  }

  /** Every file on the disk is active, awaits its upload, or was there before the program started. */
  ghost predicate NoOrphans(m: Machine, pool: seq<ToUpload>, leftover: set<Path>) {
    forall p | p in m.registry.disk :: p in leftover || Active(m, p) || Awaits(pool, p)
  }

  /** After a request, a file that it does not ask to delete is active or handed to the uploader, or it is a file
      the request had nothing to do with. */
  ghost predicate Placed(m: Machine, m': Machine, finished: seq<ToUpload>, us: seq<ToUpload>, rs: seq<Response>) {
    forall p | p in m'.registry.disk && DeleteFile(p) !in rs ::
      || Active(m', p) || Awaits(us, p)
      || (p in m.registry.disk && !Active(m, p) && !Awaits(finished, p))
  }

  // ----- deletions are carried out

  lemma {:induction false} CleanedDisk(m: Machine, rs: seq<Response>, path: Path)
    ensures path in Cleaned(m, rs).registry.disk <==> path in m.registry.disk && DeleteFile(path) !in rs
  {
    if rs != [] {
      CleanedDisk(m, rs[..|rs| - 1], path);
      assert rs == rs[..|rs| - 1] + [rs[|rs| - 1]];
    }
  }

  lemma {:induction false} AllDeleted(files: map<StreamId, Path>, gone: set<StreamId>, order: seq<StreamId>, id: StreamId)
    requires id in order && id in gone && id in files
    ensures DeleteFile(files[id]) in Deletions(files, gone, order)
  {
    if id != order[|order| - 1] {
      AllDeleted(files, gone, order[..|order| - 1], id);
    }
  }

  // ----- requests

  lemma SealPlaced(c: Config, m: Machine, id: StreamId, env: Env)
    requires id in m.streams && SealStream(c, m, id, env).1.ReadyForUpload?
    ensures var (m', r) := SealStream(c, m, id, env); Placed(m, m', [], [r.toUpload], [])
  {
    var (m', r) := SealStream(c, m, id, env);
    assert r.toUpload in [r.toUpload];
    forall p | p in m'.registry.disk && Active(m, p)
      ensures Active(m', p) || Awaits([r.toUpload], p)
    {
      var owner :| owner in m.registry.files && m.registry.files[owner] == p;
      assert owner != id ==> owner in m'.registry.files && m'.registry.files[owner] == p;
    }
  }

  lemma PlacedTrans(m: Machine, m1: Machine, m2: Machine, us: seq<ToUpload>, u: ToUpload)
    requires Placed(m, m1, [], us, []) && Placed(m1, m2, [], [u], [])
    ensures Placed(m, m2, [], us + [u], [])
  {
    var all := us + [u];
    assert u in all && forall x | x in us :: x in all;
    forall p | p in m2.registry.disk
      ensures Active(m2, p) || Awaits(all, p) || (p in m.registry.disk && !Active(m, p))
    {
      assert DeleteFile(p) !in [];
      if Awaits(us, p) {
        var x :| x in us && x.file.path == p;
        assert x in all;
      }
    }
  }

  lemma {:induction false} SealAllPlaced(c: Config, m: Machine, ids: seq<StreamId>, env: Env)
    ensures var (m', rs) := SealAll(c, m, ids, env); NoFatal(rs) ==> Placed(m, m', [], Uploads(rs), [])
  {
    if ids != [] {
      var (m1, rs) := SealAll(c, m, ids[..|ids| - 1], env);
      SealAllPlaced(c, m, ids[..|ids| - 1], env);
      var id := ids[|ids| - 1];
      if id in m1.streams {
        NextPlaced(c, m, m1, rs, id, env);
      }
    }
  }

  lemma NextPlaced(c: Config, m: Machine, m1: Machine, rs: seq<Response>, id: StreamId, env: Env)
    requires id in m1.streams && (NoFatal(rs) ==> Placed(m, m1, [], Uploads(rs), []))
    ensures var (m2, r) := SealStream(c, m1, id, env);
            NoFatal(rs + [r]) ==> Placed(m, m2, [], Uploads(rs + [r]), [])
  {
    var (m2, r) := SealStream(c, m1, id, env);
    if NoFatal(rs + [r]) {
      assert r in rs + [r] && forall x | x in rs :: x in rs + [r];
      UploadsSnoc(rs, r);
      SealPlaced(c, m1, id, env);
      PlacedTrans(m, m1, m2, Uploads(rs), r.toUpload);
    }
  }

  lemma ConsumedPlaced(c: Config, m: Machine, r: Record, id: StreamId, now: int)
    ensures Placed(m, Consumed(c, m, r, id, now), [], [], [])
  {
    var m' := Consumed(c, m, r, id, now);
    assert forall owner | owner in m.registry.files ::
      owner in m'.registry.files && m'.registry.files[owner] == m.registry.files[owner];
    if LineOf(c, r) != [] {
      assert id in m'.registry.files;
    }
  }

  lemma RecordPlaced(c: Config, m: Machine, r: Record, env: Env)
    ensures var (m', rs) := HandleProcessRecord(c, m, r, env); NoFatal(rs) ==> Placed(m, m', [], Uploads(rs), [])
  {
    ProcessCases(c, m, r, env);
    NoUploads([]);
    if c.route(r).Some? && c.line(r).Ok? {
      var id := c.route(r).value;
      var m2 := Consumed(c, m, r, id, env.now);
      ConsumedPlaced(c, m, r, id, env.now);
      if ShouldSeal(c, m2, id) {
        NextPlaced(c, m, m2, [RecordConsumed], id, env);
      }
    }
  }

  lemma CompletionPlaced(c: Config, m: Machine, u: ToUpload, ok: bool)
    ensures var (m', rs) := HandleUploadCompletion(m, Outcome(u, ok));
            NoFatal(rs) ==> Placed(m, m', [u], Uploads(rs), rs)
  {
    var (m', rs) := HandleUploadCompletion(m, Outcome(u, ok));
    assert rs == [rs[0]] && rs[0] in rs;
    OneResponse([], rs[0]);
    if !ok && u.retries > 0 {
      assert u.Decrement() in Uploads(rs);
    }
    forall p | p in m'.registry.disk && DeleteFile(p) !in rs && NoFatal(rs)
      ensures Active(m', p) || Awaits(Uploads(rs), p) || (p in m.registry.disk && !Active(m, p) && !Awaits([u], p))
    {
      assert Active(m, p) ==> Active(m', p);
    }
  }

  lemma RequestPlaced(c: Config, m: Machine, s: Sink, p: Polled, env: Env)
    requires Pollable(s, p)
    ensures var (m', rs) := Handle(c, m, Select(s, p).1, env);
            var finished := if p.UploadDone? then [s.pool[p.index]] else [];
            NoFatal(rs) ==> Placed(m, m', finished, Uploads(rs), rs)
  {
    var rs := Handle(c, m, Select(s, p).1, env).1;
    match p
    case Received(r) => RecordPlaced(c, m, r, env);
    case UploadTimer =>
      SealAllPlaced(c, m, Due(c, m, env), env);
    case UploadDone(i, ok) => CompletionPlaced(c, m, s.pool[i], ok);
    case CommitTimer(a) => CommitPlaced(m, a);
    case Terminated =>
      SealAllPlaced(c, m, env.order, env);
      SignalPlaced(m, SealAll(c, m, env.order, env).0, SealAll(c, m, env.order, env).1);
  }

  lemma CommitPlaced(m: Machine, a: set<TopicId>)
    ensures Placed(m, Committed(m, a), [], Uploads([CommitAsync(CommitListOf(m, a))]), [CommitAsync(CommitListOf(m, a))])
  {
    assert Committed(m, a).registry == m.registry;
    assert forall p :: Active(m, p) ==> Active(Committed(m, a), p);
  }

  lemma SignalPlaced(m: Machine, m': Machine, rs: seq<Response>)
    requires NoFatal(rs) ==> Placed(m, m', [], Uploads(rs), [])
    ensures NoFatal(rs + [DrainAndShutdown]) ==>
              Placed(m, m', [], Uploads(rs + [DrainAndShutdown]), rs + [DrainAndShutdown])
  {
    UploadsSnoc(rs, DrainAndShutdown);
    if NoFatal(rs + [DrainAndShutdown]) {
      assert forall x | x in rs :: x in rs + [DrainAndShutdown];
    }
  }

  // ----- revocations

  lemma RevocationPlaced(m: Machine, pool: seq<ToUpload>, partitions: set<TopicId>, env: Env, leftover: set<Path>)
    requires NoOrphans(m, pool, leftover) && forall id | id in m.streams :: id in env.order
    ensures var (m1, rs) := HandleRevokePartitions(m, partitions, env);
            NoOrphans(Cleaned(m1, rs), pool, leftover) && Cleaned(m1, rs).streams.Keys <= m.streams.Keys
  {
    var (m1, rs) := HandleRevokePartitions(m, partitions, env);
    var gone := RevokedStreams(m.streams, partitions);
    CleanedSame(m1, rs);
    forall p | p in Cleaned(m1, rs).registry.disk
      ensures p in leftover || Active(Cleaned(m1, rs), p) || Awaits(pool, p)
    {
      CleanedDisk(m1, rs, p);
      if Active(m, p) {
        var id :| id in m.registry.files && m.registry.files[id] == p;
        if id in gone {
          AllDeleted(m.registry.files, gone, env.order, id);
        }
        assert id in m1.registry.files && m1.registry.files[id] == p;
      }
    }
  }

  lemma {:induction false} RevocationsPlaced(m: Machine, pool: seq<ToUpload>, pending: seq<set<TopicId>>, env: Env,
                                             leftover: set<Path>)
    requires NoOrphans(m, pool, leftover) && forall id | id in m.streams :: id in env.order
    ensures var m' := AfterRevocations(m, pending, env);
            NoOrphans(m', pool, leftover) && m'.streams.Keys <= m.streams.Keys
  {
    if pending != [] {
      RevocationsPlaced(m, pool, pending[..|pending| - 1], env, leftover);
      RevocationPlaced(AfterRevocations(m, pending[..|pending| - 1], env), pool, pending[|pending| - 1], env, leftover);
    }
  }

  // ----- turns

  lemma PoolShrinks(w: World, p: Polled, path: Path)
    requires Pollable(w.sink, p)
    ensures Awaits(w.sink.pool, path) ==> Awaits(Select(w.sink, p).0.pool, path) || Awaits(Finished(w, p), path)
  {
    if Awaits(w.sink.pool, path) {
      var u :| u in w.sink.pool && u.file.path == path;
      var k :| 0 <= k < |w.sink.pool| && w.sink.pool[k] == u;
      if p.UploadDone? {
        var rest := Without(w.sink.pool, p.index);
        assert k < p.index ==> rest[k] == u;
        assert k > p.index ==> rest[k - 1] == u;
        assert w.sink.pool[p.index] in Finished(w, p);
      }
    }
  }

  lemma TurnPlaced(w: World, p: Polled, m1: Machine, m2: Machine, rs: seq<Response>, w': World, leftover: set<Path>)
    requires Pollable(w.sink, p) && NoOrphans(m1, w.sink.pool, leftover)
    requires Placed(m1, m2, Finished(w, p), Uploads(rs), rs)
    requires w'.sink.machine == Cleaned(m2, rs) && w'.sink.pool == Select(w.sink, p).0.pool + Uploads(rs)
    ensures NoOrphans(w'.sink.machine, w'.sink.pool, leftover)
  {
    var m', pool := w'.sink.machine, w'.sink.pool;
    CleanedSame(m2, rs);
    assert forall u | u in Select(w.sink, p).0.pool || u in Uploads(rs) :: u in pool;
    forall path | path in m'.registry.disk
      ensures path in leftover || Active(m', path) || Awaits(pool, path)
    {
      CleanedDisk(m2, rs, path);
      PoolShrinks(w, p, path);
      assert Active(m2, path) ==> Active(m', path);
      assert Awaits(Uploads(rs), path) ==> Awaits(pool, path);
      assert Awaits(Select(w.sink, p).0.pool, path) ==> Awaits(pool, path);
    }
  }

  lemma LoopPlaced(c: Config, log: set<Record>, first: map<TopicId, int>, w: World, p: Polled, env: Env,
                   leftover: set<Path>)
    requires WorldInv(c, log, first, w) && Enabled(log, w, LoopTurn(p, env))
    requires NoOrphans(w.sink.machine, w.sink.pool, leftover)
    ensures var w' := Next(c, log, w, LoopTurn(p, env));
            !w'.sink.phase.Stopped? ==> NoOrphans(w'.sink.machine, w'.sink.pool, leftover)
  {
    var m1, m2, rs := LoopParts(c, log, first, w, p, env, leftover);
    var w' := Next(c, log, w, LoopTurn(p, env));
    if !w'.sink.phase.Stopped? {
      TurnPlaced(w, p, m1, m2, rs, w', leftover);
    }
  }

  lemma LoopParts(c: Config, log: set<Record>, first: map<TopicId, int>, w: World, p: Polled, env: Env,
                  leftover: set<Path>)
    returns (m1: Machine, m2: Machine, rs: seq<Response>)
    requires WorldInv(c, log, first, w) && Enabled(log, w, LoopTurn(p, env))
    requires NoOrphans(w.sink.machine, w.sink.pool, leftover)
    ensures NoOrphans(m1, w.sink.pool, leftover)
    ensures NoFatal(rs) ==> Placed(m1, m2, Finished(w, p), Uploads(rs), rs)
    ensures var s' := Turn(c, w.sink, w.pending, p, env);
            !s'.phase.Stopped? ==> CarriedOut(Select(w.sink, p).0.(machine := m2), rs, s')
  {
    var s1, request := Select(w.sink, p).0, Select(w.sink, p).1;
    m1 := AfterRevocations(s1.machine, w.pending, env);
    RevocationsPlaced(w.sink.machine, w.sink.pool, w.pending, env, leftover);
    m2, rs := TurnHandled(c, log, first, w, p, env, s1, request, m1);
    RequestPlaced(c, m1, w.sink, p, env);
  }

  // ----- runs

  /** The drain deletes nothing, so the claim is about the running loop. */
  ghost predicate Tidy(w: World, leftover: set<Path>) {
    w.sink.phase.Running? ==> NoOrphans(w.sink.machine, w.sink.pool, leftover)
  }

  ghost predicate StaysTidy(w: World, w': World, leftover: set<Path>) {
    Tidy(w, leftover) ==> Tidy(w', leftover)
  }

  lemma StepTidy(c: Config, log: set<Record>, first: map<TopicId, int>, w: World, e: Event, leftover: set<Path>)
    requires WorldInv(c, log, first, w) && Enabled(log, w, e) && !e.Crash?
    ensures StaysTidy(w, Next(c, log, w, e), leftover)
  {
    if Tidy(w, leftover) {
      match e
      case LoopTurn(p, env) => LoopPlaced(c, log, first, w, p, env, leftover);
      case _ =>
    }
  }

  lemma {:induction false} TidyOn(ws: seq<World>, i: nat, j: nat, leftover: set<Path>)
    requires i <= j < |ws| && Tidy(ws[i], leftover)
    requires forall k | i <= k < j :: StaysTidy(ws[k], ws[k + 1], leftover)
    ensures Tidy(ws[j], leftover)
    decreases j - i
  {
    if i < j {
      var k := j - 1;
      TidyOn(ws, i, k, leftover);
      assert StaysTidy(ws[k], ws[k + 1], leftover);
    }
  }

  /** In every run, while the event loop runs, a file on the disk is active, awaits its upload, or was there at an
      earlier point of the same program's life: no file is forgotten by a seal, a completion or a revocation. */
  lemma NoFileForgotten(c: Config, log: set<Record>, first: map<TopicId, int>, ws: seq<World>, es: seq<Event>,
                        i: nat, j: nat, path: Path)
    requires IsRun(c, log, first, ws, es) && i <= j <= |es| && forall k | i <= k < j :: !es[k].Crash?
    requires ws[j].sink.phase.Running? && path in ws[j].sink.machine.registry.disk
    requires path !in ws[i].sink.machine.registry.disk
    ensures Active(ws[j].sink.machine, path) || Awaits(ws[j].sink.pool, path)
  {
    var leftover := ws[i].sink.machine.registry.disk.Keys;
    forall k | i <= k < j
      ensures StaysTidy(ws[k], ws[k + 1], leftover)
    {
      ReachableOk(c, log, first, ws, es, k);
      StepTidy(c, log, first, ws[k], es[k], leftover);
    }
    TidyOn(ws, i, j, leftover);
  }
}
