/** What every step of the sink among its surroundings keeps true: whatever is committed, or may still
    be committed, is stored. */
module WorldInvariant {
  import opened DataModel
  import opened Config
  import opened Ledger
  import opened MachineModel
  import opened MachineInvariant
  import opened SinkModel
  import opened World

  // ----- what is stored stays stored

  lemma StoredGrows(store: seq<Object>, more: seq<Object>, t: TopicId, offset: int)
    ensures Stored(store, t, offset) || Stored(more, t, offset) ==> Stored(store + more, t, offset)
  {
    if Stored(store, t, offset) {
      var k :| 0 <= k < |store| && offset in Listed(store[k].offsets, t);
      assert (store + more)[k] == store[k];
    } else if Stored(more, t, offset) {
      var k :| 0 <= k < |more| && offset in Listed(more[k].offsets, t);
      assert (store + more)[|store| + k] == more[k];
    }
  }

  lemma CoveredGrows(log: set<Record>, first: map<TopicId, int>, store: seq<Object>, more: seq<Object>)
    ensures forall t, v | Covered(log, first, store, t, v) :: Covered(log, first, store + more, t, v)
  {
    forall t, v | Covered(log, first, store, t, v)
      ensures Covered(log, first, store + more, t, v)
    {
      forall r | r in log && r.Tid() == t && first[t] <= r.offset < v
        ensures Stored(store + more, t, r.offset)
      {
        StoredGrows(store, more, t, r.offset);
      }
    }
  }

  // ----- the invariant

  /** Every record the state machine still lists is a record of the log. */
  predicate FromLog(log: set<Record>, m: Machine) {
    && (forall id, r | id in m.history.active && r in m.history.active[id] :: r in log)
    && (forall p, r | p in m.history.sealed && r in m.history.sealed[p] :: r in log)
  }

  /** Offsets marked as uploaded are stored, and watermarks are covered. */
  ghost predicate TrackedOk(log: set<Record>, first: map<TopicId, int>, store: seq<Object>, m: Machine) {
    && (forall t, o | t in m.uploaded && o in m.uploaded[t] :: Stored(store, t, o))
    && (forall t | t in m.watermark :: Covered(log, first, store, t, m.watermark[t]))
  }

  ghost predicate Core(c: Config, log: set<Record>, first: map<TopicId, int>, store: seq<Object>, m: Machine) {
    MachineInv(c, m) && FromLog(log, m) && TrackedOk(log, first, store, m)
  }

  /** The partition has no watermark, or a revocation not seen yet will remove it. */
  predicate Unwatermarked(m: Machine, pending: seq<set<TopicId>>, t: TopicId) {
    t !in m.watermark || exists ts | ts in pending :: t in ts
  }

  /** An owned partition without a watermark is read from a covered position. */
  ghost predicate PositionsOk(log: set<Record>, first: map<TopicId, int>, w: World) {
    forall t | t in w.owned ::
      && t in w.position
      && (Unwatermarked(w.sink.machine, w.pending, t) ==> Covered(log, first, w.store, t, w.position[t]))
  }

  /** What survives any crash: the store, the committed offsets and the commits on their way. */
  ghost predicate Durable(c: Config, log: set<Record>, first: map<TopicId, int>, w: World) {
    && (forall o | o in w.store :: ObjectOk(c, log, o))
    && w.committed.Keys == first.Keys && AllCovered(log, first, w.store, w.committed)
    && (forall tpl | tpl in w.sink.sent :: AllCovered(log, first, w.store, tpl))
  }

  ghost predicate Live(c: Config, log: set<Record>, first: map<TopicId, int>, w: World) {
    && Core(c, log, first, w.store, w.sink.machine)
    && PoolOk(c, w.sink.machine, w.sink.pool)
    && PositionsOk(log, first, w)
  }

  ghost predicate WorldInv(c: Config, log: set<Record>, first: map<TopicId, int>, w: World) {
    Durable(c, log, first, w) && (!w.sink.phase.Stopped? ==> Live(c, log, first, w))
  }

  // ----- deleting files

  /** Deleting a file that is neither active nor awaiting upload changes nothing else. */
  lemma RemovedOk(c: Config, m: Machine, pool: seq<ToUpload>, path: Path)
    requires MachineInv(c, m) && PoolOk(c, m, pool)
    requires Frozen(m, path) && forall u | u in pool :: u.file.path != path
    ensures MachineInv(c, Removed(m, path)) && PoolOk(c, Removed(m, path), pool)
  {
    var m' := Removed(m, path);
    forall id | id in m'.registry.files
      ensures FileOk(c, m', id)
    {
      assert FileOk(c, m, id);
    }
    forall id | id in m'.streams
      ensures StreamOk(c, m', id)
    {
      assert StreamOk(c, m, id);
    }
    forall u | u in pool
      ensures UploadOk(c, m', u)
    {
      assert UploadOk(c, m, u);
      assert Frozen(m', u.file.path);
    }
  }

  ghost predicate MayDelete(m: Machine, pool: seq<ToUpload>, rs: seq<Response>) {
    forall r | r in rs && r.DeleteFile? :: Frozen(m, r.path) && forall u | u in pool :: u.file.path != r.path
  }

  /** Cleaning up touches the disk only. */
  lemma {:induction false} CleanedSame(m: Machine, rs: seq<Response>)
    ensures var m' := Cleaned(m, rs);
            m' == m.(registry := m'.registry) && m'.registry == m.registry.(disk := m'.registry.disk)
  {
    if rs != [] {
      CleanedSame(m, rs[..|rs| - 1]);
    }
  }

  lemma {:induction false} CleanedOk(c: Config, m: Machine, pool: seq<ToUpload>, rs: seq<Response>)
    requires MachineInv(c, m) && PoolOk(c, m, pool) && MayDelete(m, pool, rs)
    ensures MachineInv(c, Cleaned(m, rs)) && PoolOk(c, Cleaned(m, rs), pool)
  {
    if rs != [] {
      var init, last := rs[..|rs| - 1], rs[|rs| - 1];
      assert last in rs && forall r | r in init :: r in rs;
      CleanedOk(c, m, pool, init);
      CleanedSame(m, init);
      if last.DeleteFile? {
        assert Frozen(m, last.path);
        assert Frozen(Cleaned(m, init), last.path);
        RemovedOk(c, Cleaned(m, init), pool, last.path);
      }
    }
  }

  // ----- revocations

  lemma {:induction false} DeletionsAre(files: map<StreamId, Path>, gone: set<StreamId>, order: seq<StreamId>)
    ensures forall r | r in Deletions(files, gone, order) ::
              r.DeleteFile? && exists id | id in gone && id in files :: files[id] == r.path
  {
    if order != [] {
      DeletionsAre(files, gone, order[..|order| - 1]);
    }
  }

  lemma RevokedInv(c: Config, m: Machine, pool: seq<ToUpload>, partitions: set<TopicId>)
    requires MachineInv(c, m) && PoolOk(c, m, pool)
    ensures MachineInv(c, Revoked(m, partitions)) && PoolOk(c, Revoked(m, partitions), pool)
  {
    TakenOut(c, m, RevokedStreams(m.streams, partitions), Revoked(m, partitions), None);
    PoolKept(c, m, Revoked(m, partitions), pool);
  }

  lemma RevokedDeletes(c: Config, m: Machine, pool: seq<ToUpload>, partitions: set<TopicId>, env: Env)
    requires FilesOk(c, m) && PathsDistinct(m) && PoolOk(c, m, pool)
    ensures MayDelete(Revoked(m, partitions), pool, HandleRevokePartitions(m, partitions, env).1)
  {
    var gone := RevokedStreams(m.streams, partitions);
    var m' := Revoked(m, partitions);
    var rs := Deletions(m.registry.files, gone, env.order);
    DeletionsAre(m.registry.files, gone, env.order);
    forall r | r in rs
      ensures Frozen(m', r.path) && forall u | u in pool :: u.file.path != r.path
    {
      var id :| id in gone && id in m.registry.files && m.registry.files[id] == r.path;
      assert FileOk(c, m, id);
      forall u | u in pool
        ensures u.file.path != r.path
      {
        assert UploadOk(c, m, u);
      }
    }
  }

  /** What the pending revocations leave. */
  predicate Unseen(pending: seq<set<TopicId>>, t: TopicId) {
    forall ts | ts in pending :: t !in ts
  }

  lemma {:induction false} RevocationsOk(c: Config, log: set<Record>, first: map<TopicId, int>, store: seq<Object>,
                                         m: Machine, pool: seq<ToUpload>, pending: seq<set<TopicId>>, env: Env)
    requires Core(c, log, first, store, m) && PoolOk(c, m, pool)
    ensures var m' := AfterRevocations(m, pending, env);
            && Core(c, log, first, store, m') && PoolOk(c, m', pool)
            && (forall t :: t in m'.watermark <==> t in m.watermark && Unseen(pending, t))
  {
    if pending != [] {
      var init, last := pending[..|pending| - 1], pending[|pending| - 1];
      var m1 := AfterRevocations(m, init, env);
      RevocationsOk(c, log, first, store, m, pool, init, env);
      var (m2, rs) := HandleRevokePartitions(m1, last, env);
      RevokedInv(c, m1, pool, last);
      RevokedDeletes(c, m1, pool, last, env);
      CleanedOk(c, m2, pool, rs);
      CleanedSame(m2, rs);
      RevokedTracked(log, first, store, m1, last);
      assert pending == init + [last];
      assert forall t :: Unseen(pending, t) <==> Unseen(init, t) && t !in last;
    }
  }

  lemma RevokedTracked(log: set<Record>, first: map<TopicId, int>, store: seq<Object>, m: Machine,
                       partitions: set<TopicId>)
    requires FromLog(log, m) && TrackedOk(log, first, store, m)
    ensures FromLog(log, Revoked(m, partitions)) && TrackedOk(log, first, store, Revoked(m, partitions))
  {
  }

  // ----- commits

  /** Only the watermarks and the uploaded sets differ. */
  predicate SameFiles(m: Machine, m': Machine) {
    m'.streams == m.streams && m'.registry == m.registry && m'.history == m.history
  }

  lemma SameFilesInv(c: Config, log: set<Record>, m: Machine, m': Machine, pool: seq<ToUpload>)
    requires MachineInv(c, m) && PoolOk(c, m, pool) && SameFiles(m, m')
    ensures MachineInv(c, m') && PoolOk(c, m', pool)
  {
    forall id | id in m'.streams
      ensures StreamOk(c, m', id)
    {
      assert StreamOk(c, m, id);
    }
    forall id | id in m'.registry.files
      ensures FileOk(c, m', id)
    {
      assert FileOk(c, m, id);
    }
    PoolKept(c, m, m', pool);
  }

  /** What a commit scan lists is covered: below the watermark already, and from there on uploaded. */
  lemma ReachCovered(log: set<Record>, first: map<TopicId, int>, store: seq<Object>, m: Machine, t: TopicId)
    requires TrackedOk(log, first, store, m) && t in m.watermark
    ensures Covered(log, first, store, t, Reach(m, t))
  {
    forall r | r in log && r.Tid() == t && first[t] <= r.offset < Reach(m, t)
      ensures Stored(store, t, r.offset)
    {
      if r.offset >= m.watermark[t] {
        assert r.offset in UploadedOf(m.uploaded, t);
      }
    }
  }

  lemma CommitOk(log: set<Record>, first: map<TopicId, int>, store: seq<Object>, m: Machine, assignment: set<TopicId>)
    requires TrackedOk(log, first, store, m)
    ensures AllCovered(log, first, store, CommitListOf(m, assignment))
    ensures TrackedOk(log, first, store, Committed(m, assignment))
  {
    forall t | t in CommitListOf(m, assignment)
      ensures Covered(log, first, store, t, CommitListOf(m, assignment)[t])
    {
      ReachCovered(log, first, store, m, t);
    }
  }

  // ----- uploads that succeed

  lemma ObjectStored(c: Config, log: set<Record>, m: Machine, u: ToUpload)
    requires UploadOk(c, m, u) && FromLog(log, m)
    ensures ObjectOk(c, log, ObjectOf(m, u)) && ObjectOf(m, u).offsets == u.file.offsetsConsumed
  {
  }

  lemma UploadedTracked(log: set<Record>, first: map<TopicId, int>, store: seq<Object>, m: Machine, os: Offsets)
    requires TrackedOk(log, first, store, m)
    requires forall t, o | t in os && o in os[t] :: Stored(store, t, o)
    ensures TrackedOk(log, first, store, m.(uploaded := AddUploaded(m.uploaded, os)))
  {
    var up := AddUploaded(m.uploaded, os);
    forall t, o | t in up && o in up[t]
      ensures Stored(store, t, o)
    {
      assert o in UploadedOf(m.uploaded, t) || (t in os && o in os[t]);
    }
  }

  lemma TrackedGrows(log: set<Record>, first: map<TopicId, int>, store: seq<Object>, more: seq<Object>, m: Machine)
    requires TrackedOk(log, first, store, m)
    ensures TrackedOk(log, first, store + more, m)
  {
    CoveredGrows(log, first, store, more);
    forall t, x | t in m.uploaded && x in m.uploaded[t]
      ensures Stored(store + more, t, x)
    {
      StoredGrows(store, more, t, x);
    }
  }

  // ----- records

  predicate AllFromLog(log: set<Record>, rs: seq<Record>) {
    forall r | r in rs :: r in log
  }

  lemma SealFromLog(c: Config, log: set<Record>, m: Machine, id: StreamId, env: Env)
    requires FromLog(log, m) && id in m.streams
    ensures FromLog(log, SealStream(c, m, id, env).0)
  {
    assert AllFromLog(log, Records(m.history.active, id));
  }

  lemma {:induction false} SealAllFromLog(c: Config, log: set<Record>, m: Machine, ids: seq<StreamId>, env: Env)
    requires FromLog(log, m)
    ensures FromLog(log, SealAll(c, m, ids, env).0)
  {
    if ids != [] {
      SealAllFromLog(c, log, m, ids[..|ids| - 1], env);
      var m1 := SealAll(c, m, ids[..|ids| - 1], env).0;
      if ids[|ids| - 1] in m1.streams {
        SealFromLog(c, log, m1, ids[|ids| - 1], env);
      }
    }
  }

  lemma ConsumedFromLog(c: Config, log: set<Record>, m: Machine, r: Record, id: StreamId, now: int)
    requires FromLog(log, m) && r in log
    ensures FromLog(log, Noted(m, r, id, now)) && FromLog(log, Consumed(c, m, r, id, now))
  {
    assert AllFromLog(log, Records(m.history.active, id));
    assert AllFromLog(log, Records(m.history.active, id) + [r]);
  }

  /** Processing a record gives its partition a watermark and leaves the other watermarks alone. */
  lemma ProcessTracked(c: Config, log: set<Record>, m: Machine, r: Record, env: Env)
    requires FromLog(log, m) && r in log
    ensures var (m', rs) := HandleProcessRecord(c, m, r, env);
            NoFatal(rs) ==>
              && FromLog(log, m') && m'.uploaded == m.uploaded
              && m'.watermark == if r.Tid() in m.watermark then m.watermark else m.watermark[r.Tid() := r.offset]
  {
    ProcessCases(c, m, r, env);
    if c.route(r).Some? {
      var id := c.route(r).value;
      ConsumedFromLog(c, log, m, r, id, env.now);
      var m2 := Consumed(c, m, r, id, env.now);
      if id in m2.streams {
        SealFromLog(c, log, m2, id, env);
      }
    }
  }

  // ----- carrying out responses

  predicate IsCommit(r: Response, tpl: CommitList) {
    r == CommitAsync(tpl) || r == CommitSync(tpl)
  }

  ghost predicate CommitsOk(log: set<Record>, first: map<TopicId, int>, store: seq<Object>, rs: seq<Response>) {
    forall r, tpl | r in rs && IsCommit(r, tpl) :: AllCovered(log, first, store, tpl)
  }

  /** Only the last response may ask for the drain. */
  predicate DrainsLast(rs: seq<Response>) {
    forall i | 0 <= i < |rs| - 1 :: !rs[i].DrainAndShutdown?
  }

  /** Nothing but the pool, the disk and the phase shows what has been carried out. */
  ghost predicate CarriedOut(s: Sink, rs: seq<Response>, s': Sink) {
    && NoFatal(rs)
    && s'.pool == s.pool + Uploads(rs)
    && s'.machine == Cleaned(s.machine, rs)
    && (s'.phase.Draining? <==> rs != [] && rs[|rs| - 1].DrainAndShutdown?)
  }

  lemma Carried(s: Sink, rs: seq<Response>, s1: Sink, r: Response)
    requires CarriedOut(s, rs, s1) && s1.phase.Running? && !r.Fatal?
    ensures CarriedOut(s, rs + [r], Respond(s1, r))
  {
    var all, uploads := rs + [r], Uploads(rs);
    assert all[..|rs|] == rs && all[|rs|] == r;
    UploadsSnoc(rs, r);
    if r.ReadyForUpload? {
      assert s.pool + uploads + [r.toUpload] == s.pool + (uploads + [r.toUpload]);
    } else {
      assert uploads + [] == uploads;
    }
  }

  ghost predicate AllSentCovered(log: set<Record>, first: map<TopicId, int>, store: seq<Object>, sent: seq<CommitList>) {
    forall tpl | tpl in sent :: AllCovered(log, first, store, tpl)
  }

  lemma {:induction false} SendsCovered(log: set<Record>, first: map<TopicId, int>, store: seq<Object>,
                                        s: Sink, rs: seq<Response>)
    requires CommitsOk(log, first, store, rs) && AllSentCovered(log, first, store, s.sent)
    ensures AllSentCovered(log, first, store, Dispatch(s, rs).sent)
  {
    if rs != [] {
      var init, last := rs[..|rs| - 1], rs[|rs| - 1];
      assert last in rs && forall r | r in init :: r in rs;
      SendsCovered(log, first, store, s, init);
      SentOk(log, first, store, Dispatch(s, init), last);
    }
  }

  lemma {:induction false} CarriesOut(s: Sink, rs: seq<Response>)
    requires s.phase.Running? && DrainsLast(rs)
    ensures var s' := Dispatch(s, rs); !s'.phase.Stopped? ==> CarriedOut(s, rs, s')
  {
    if rs == [] {
      assert s.pool + [] == s.pool;
    } else {
      var init, last := rs[..|rs| - 1], rs[|rs| - 1];
      assert rs == init + [last];
      CarriesOut(s, init);
      var s1 := Dispatch(s, init);
      if s1.phase.Running? && !last.Fatal? {
        Carried(s, init, s1, last);
      }
    }
  }

  /** Unless a fatal response stops it, the sink carries out all the responses. */
  lemma Dispatched(log: set<Record>, first: map<TopicId, int>, store: seq<Object>, s: Sink, rs: seq<Response>)
    requires s.phase.Running? && DrainsLast(rs) && CommitsOk(log, first, store, rs)
    requires forall tpl | tpl in s.sent :: AllCovered(log, first, store, tpl)
    ensures var s' := Dispatch(s, rs);
            && (forall tpl | tpl in s'.sent :: AllCovered(log, first, store, tpl))
            && (!s'.phase.Stopped? ==> CarriedOut(s, rs, s'))
  {
    SendsCovered(log, first, store, s, rs);
    CarriesOut(s, rs);
  }

  lemma SentOk(log: set<Record>, first: map<TopicId, int>, store: seq<Object>, s: Sink, r: Response)
    requires AllSentCovered(log, first, store, s.sent)
    requires forall tpl | IsCommit(r, tpl) :: AllCovered(log, first, store, tpl)
    ensures AllSentCovered(log, first, store, Respond(s, r).sent)
  {
    match r
    case CommitAsync(tpl) => assert IsCommit(r, tpl);
    case CommitSync(tpl) => assert IsCommit(r, tpl);
    case _ =>
  }

  lemma NoFatalSnoc(rs: seq<Response>, r: Response)
    ensures NoFatal(rs + [r]) <==> NoFatal(rs) && !r.Fatal?
  {
    var all := rs + [r];
    assert r in all && forall x | x in rs :: x in all;
  }

  lemma DrainsLastInit(rs: seq<Response>)
    requires DrainsLast(rs) && rs != []
    ensures var init := rs[..|rs| - 1]; DrainsLast(init) && (init != [] ==> !init[|init| - 1].DrainAndShutdown?)
  {
  }

  /** The phase after one more response. */
  lemma DispatchSnoc(s: Sink, rs: seq<Response>, r: Response)
    ensures var s1, s2 := Dispatch(s, rs), Dispatch(s, rs + [r]);
            s2.phase == if !s1.phase.Running? then s1.phase
                        else if r.Fatal? then Stopped
                        else if r.DrainAndShutdown? then Draining
                        else Running
  {
    assert (rs + [r])[..|rs|] == rs;
  }

  /** The loop stops exactly when one of the responses is fatal. */
  lemma {:induction false} StopsIfFatal(s: Sink, rs: seq<Response>)
    requires s.phase.Running? && DrainsLast(rs)
    ensures Dispatch(s, rs).phase.Stopped? <==> !NoFatal(rs)
    ensures Dispatch(s, rs).phase.Draining? <==> NoFatal(rs) && rs != [] && rs[|rs| - 1].DrainAndShutdown?
  {
    if rs != [] {
      var init, last := rs[..|rs| - 1], rs[|rs| - 1];
      DrainsLastInit(rs);
      StopsIfFatal(s, init);
      NoFatalSnoc(init, last);
      DispatchSnoc(s, init, last);
      assert rs == init + [last];
    }
  }
}
