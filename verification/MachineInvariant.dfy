/** What every request keeps true of the state machine, its files and the uploads it has handed out. */
module MachineInvariant {
  import opened DataModel
  import opened Config
  import opened FileRegistry
  import opened Ledger
  import opened MachineModel

  // ----- the invariant

  predicate RoutedTo(c: Config, r: Record, id: StreamId) {
    c.line(r).Ok? && c.route(r) == Some(id)
  }

  /** A stream state lists exactly the records that are in the stream, and counts their bytes. */
  predicate StreamOk(c: Config, m: Machine, id: StreamId)
    requires id in m.streams
  {
    var st, rs := m.streams[id], Records(m.history.active, id);
    && rs != [] && (forall r | r in rs :: RoutedTo(c, r, id))
    && st.offsetsConsumed == OffsetsOf(rs)
    && st.recordsConsumed == |rs|
    && st.bytesConsumed == |Content(c, rs)|
  }

  /** An active file holds exactly the lines of the records of its stream. */
  predicate FileOk(c: Config, m: Machine, id: StreamId)
    requires id in m.registry.files
  {
    var path := m.registry.files[id];
    && path < m.registry.next
    && path in m.registry.disk && m.registry.disk[path] == Content(c, Records(m.history.active, id))
    && path !in m.history.sealed
  }

  ghost predicate StreamsOk(c: Config, m: Machine) {
    forall id | id in m.streams :: StreamOk(c, m, id)
  }

  predicate NoStrays(m: Machine) {
    m.history.active.Keys == m.streams.Keys
  }

  /** The registry holds a file for exactly the streams that have consumed bytes. */
  ghost predicate FilesMatch(m: Machine) {
    forall id :: id in m.registry.files <==> id in m.streams && m.streams[id].bytesConsumed > 0
  }

  ghost predicate FilesOk(c: Config, m: Machine) {
    forall id | id in m.registry.files :: FileOk(c, m, id)
  }

  ghost predicate PathsDistinct(m: Machine) {
    forall a, b | a in m.registry.files && b in m.registry.files && a != b ::
      m.registry.files[a] != m.registry.files[b]
  }

  ghost predicate MachineInv(c: Config, m: Machine) {
    && StreamsOk(c, m) && NoStrays(m)
    && FilesMatch(m) && FilesOk(c, m) && PathsDistinct(m)
    && Unused(m)
  }

  ghost predicate Unused(m: Machine) {
    forall p: Path | p >= m.registry.next :: p !in m.registry.disk && p !in m.history.sealed
  }

  /** A path that was given out and is no longer written to. */
  ghost predicate Frozen(m: Machine, path: Path) {
    path < m.registry.next && forall id | id in m.registry.files :: m.registry.files[id] != path
  }

  /** A sealed file carries the offsets of exactly the records whose lines it holds, under the key of
      the stream they are routed to. */
  ghost predicate UploadOk(c: Config, m: Machine, u: ToUpload) {
    var path := u.file.path;
    var rs := Records(m.history.sealed, path);
    && Frozen(m, path) && rs != []
    && (forall r | r in rs :: Accepted(c, r) && KeyFor(c, r, path) == u.objectKey)
    && u.file.offsetsConsumed == OffsetsOf(rs)
    && u.file.recordCount == |rs|
    && u.file.rawSizeB == |Content(c, rs)|
    && path in m.registry.disk && m.registry.disk[path] == Content(c, rs)
    && u.retries <= c.maxUploadsRetry
  }

  ghost predicate PoolOk(c: Config, m: Machine, pool: seq<ToUpload>) {
    && (forall u | u in pool :: UploadOk(c, m, u))
    && (forall i, j | 0 <= i < j < |pool| :: pool[i].file.path != pool[j].file.path)
  }

  /** Nothing happens to the files that are no longer written to. */
  ghost predicate Preserves(m: Machine, m': Machine) {
    && m.registry.next <= m'.registry.next
    && forall p | Frozen(m, p) ::
         && Frozen(m', p)
         && Records(m'.history.sealed, p) == Records(m.history.sealed, p)
         && (p in m.registry.disk ==> p in m'.registry.disk && m'.registry.disk[p] == m.registry.disk[p])
  }

  lemma PoolKept(c: Config, m: Machine, m': Machine, pool: seq<ToUpload>)
    requires PoolOk(c, m, pool) && Preserves(m, m')
    ensures PoolOk(c, m', pool)
  {
    forall u | u in pool
      ensures UploadOk(c, m', u)
    {
      assert UploadOk(c, m, u);
    }
  }

  // ----- consuming a record

  lemma NotedPreserves(m: Machine, r: Record, id: StreamId, now: int)
    ensures Preserves(m, Noted(m, r, id, now))
  {
  }

  lemma WrittenPreserves(m: Machine, id: StreamId, line: Bytes)
    ensures Preserves(m, m.(registry := Written(m.registry, id, line)))
  {
  }

  lemma FailedPreserves(m: Machine, m': Machine, id: StreamId, line: Bytes, fault: WriteFault)
    requires m'.registry == AfterWrite(m.registry, id, line, fault)
    requires m'.history.sealed == m.history.sealed
    ensures Preserves(m, m')
  {
  }

  /** The state after a record has been listed and, unless it is skipped, written. */
  function Consumed(c: Config, m: Machine, r: Record, id: StreamId, now: int): Machine {
    var m1 := Noted(m, r, id, now);
    var line := LineOf(c, r);
    if line == [] then m1
    else Grown(m1, id, |line|).(registry := Written(m1.registry, id, line))
  }

  lemma ConsumedStream(c: Config, m: Machine, r: Record, id: StreamId, now: int)
    requires NoStrays(m) && (id in m.streams ==> StreamOk(c, m, id)) && RoutedTo(c, r, id)
    ensures StreamOk(c, Consumed(c, m, r, id, now), id)
  {
    var rs := Records(m.history.active, id);
    Snoc(c, rs, r);
    assert Records(Consumed(c, m, r, id, now).history.active, id) == rs + [r];
  }

  lemma ConsumedStreams(c: Config, m: Machine, r: Record, id: StreamId, now: int)
    requires StreamsOk(c, m) && NoStrays(m) && RoutedTo(c, r, id)
    ensures var m' := Consumed(c, m, r, id, now); StreamsOk(c, m') && NoStrays(m')
  {
    assert id in m.streams ==> StreamOk(c, m, id);
    ConsumedStream(c, m, r, id, now);
    ConsumedOne(c, m, r, id, now);
    OnlyOneChanged(c, m, Consumed(c, m, r, id, now), id);
  }

  /** Consuming a record changes one stream. */
  lemma ConsumedOne(c: Config, m: Machine, r: Record, id: StreamId, now: int)
    ensures var m' := Consumed(c, m, r, id, now);
            && id in m'.streams && m'.streams == m.streams[id := m'.streams[id]]
            && id in m'.history.active && m'.history.active == m.history.active[id := m'.history.active[id]]
  {
  }

  lemma OnlyOneChanged(c: Config, m: Machine, m': Machine, id: StreamId)
    requires StreamsOk(c, m) && NoStrays(m)
    requires id in m'.streams && m'.streams == m.streams[id := m'.streams[id]] && StreamOk(c, m', id)
    requires id in m'.history.active && m'.history.active == m.history.active[id := m'.history.active[id]]
    ensures StreamsOk(c, m') && NoStrays(m')
  {
    forall other | other in m'.streams && other != id
      ensures StreamOk(c, m', other)
    {
      assert StreamOk(c, m, other);
    }
  }

  /** The content of a stream that has no file is empty. */
  lemma ConsumedFile(c: Config, m: Machine, r: Record, id: StreamId, now: int)
    requires NoStrays(m) && FilesMatch(m) && Unused(m)
    requires id in m.streams ==> StreamOk(c, m, id)
    requires id in m.registry.files ==> FileOk(c, m, id)
    ensures var m' := Consumed(c, m, r, id, now);
            && (id in m'.registry.files <==> m'.streams[id].bytesConsumed > 0)
            && (id in m'.registry.files ==> FileOk(c, m', id))
  {
    var rs := Records(m.history.active, id);
    Snoc(c, rs, r);
    assert id !in m.registry.files ==> Content(c, rs) == [];
    assert Records(Consumed(c, m, r, id, now).history.active, id) == rs + [r];
  }

  lemma ConsumedOthers(c: Config, m: Machine, r: Record, id: StreamId, now: int, other: StreamId)
    requires other != id && other in m.registry.files && FileOk(c, m, other)
    requires id in m.registry.files ==> m.registry.files[id] != m.registry.files[other]
    ensures var m' := Consumed(c, m, r, id, now); other in m'.registry.files && FileOk(c, m', other)
  {
  }

  lemma ConsumedFiles(c: Config, m: Machine, r: Record, id: StreamId, now: int)
    requires MachineInv(c, m)
    ensures var m' := Consumed(c, m, r, id, now); FilesMatch(m') && FilesOk(c, m')
  {
    var m' := Consumed(c, m, r, id, now);
    assert id in m.streams ==> StreamOk(c, m, id);
    assert id in m.registry.files ==> FileOk(c, m, id);
    ConsumedFile(c, m, r, id, now);
    forall other | other in m'.registry.files && other != id
      ensures FileOk(c, m', other)
    {
      assert FileOk(c, m, other);
      ConsumedOthers(c, m, r, id, now, other);
    }
    FilesMatchElsewhere(c, m, r, id, now);
  }

  lemma FilesMatchElsewhere(c: Config, m: Machine, r: Record, id: StreamId, now: int)
    requires FilesMatch(m)
    ensures var m' := Consumed(c, m, r, id, now);
            forall other | other != id ::
              other in m'.registry.files <==> other in m'.streams && m'.streams[other].bytesConsumed > 0
  {
  }

  ghost predicate PathsBelow(m: Machine) {
    forall id | id in m.registry.files :: m.registry.files[id] < m.registry.next
  }

  lemma FilesBelow(c: Config, m: Machine)
    requires FilesOk(c, m)
    ensures PathsBelow(m)
  {
    forall id | id in m.registry.files
      ensures m.registry.files[id] < m.registry.next
    {
      assert FileOk(c, m, id);
    }
  }

  lemma ConsumedPaths(c: Config, m: Machine, r: Record, id: StreamId, now: int)
    requires PathsDistinct(m) && Unused(m) && PathsBelow(m)
    ensures var m' := Consumed(c, m, r, id, now); PathsDistinct(m') && Unused(m')
  {
  }

  lemma ConsumedPreserves(c: Config, m: Machine, r: Record, id: StreamId, now: int)
    ensures Preserves(m, Consumed(c, m, r, id, now))
  {
    NotedPreserves(m, r, id, now);
    if LineOf(c, r) != [] {
      WrittenPreserves(Grown(Noted(m, r, id, now), id, |LineOf(c, r)|), id, LineOf(c, r));
    }
  }

  lemma ConsumedInv(c: Config, m: Machine, r: Record, id: StreamId, now: int)
    requires MachineInv(c, m) && RoutedTo(c, r, id)
    ensures MachineInv(c, Consumed(c, m, r, id, now))
    ensures Preserves(m, Consumed(c, m, r, id, now))
  {
    ConsumedStreams(c, m, r, id, now);
    ConsumedFiles(c, m, r, id, now);
    FilesBelow(c, m);
    ConsumedPaths(c, m, r, id, now);
    ConsumedPreserves(c, m, r, id, now);
  }

  // ----- sealing

  /** Streams are taken out with their files; a file that gets a list of records is one of theirs. */
  ghost predicate TakesOut(m: Machine, ids: set<StreamId>, m': Machine, sealed: Option<(StreamId, Path)>) {
    && m'.streams == m.streams - ids && m'.registry == Forgotten(m.registry, ids)
    && m'.history.active == m.history.active - ids
    && match sealed
       case None => m'.history.sealed == m.history.sealed
       case Some((id, path)) =>
         && id in ids && id in m.registry.files && m.registry.files[id] == path
         && m'.history.sealed == m.history.sealed[path := Records(m.history.active, id)]
  }

  lemma TakenOutStreams(c: Config, m: Machine, ids: set<StreamId>, m': Machine, sealed: Option<(StreamId, Path)>)
    requires StreamsOk(c, m) && NoStrays(m) && TakesOut(m, ids, m', sealed)
    ensures StreamsOk(c, m') && NoStrays(m')
  {
    forall id | id in m'.streams
      ensures StreamOk(c, m', id)
    {
      assert StreamOk(c, m, id);
    }
  }

  lemma TakenOutFiles(c: Config, m: Machine, ids: set<StreamId>, m': Machine, sealed: Option<(StreamId, Path)>)
    requires FilesOk(c, m) && PathsDistinct(m) && TakesOut(m, ids, m', sealed)
    ensures FilesOk(c, m') && PathsDistinct(m')
  {
    forall id | id in m'.registry.files
      ensures FileOk(c, m', id)
    {
      assert FileOk(c, m, id);
    }
  }

  lemma TakenOutRest(m: Machine, ids: set<StreamId>, m': Machine, sealed: Option<(StreamId, Path)>)
    requires FilesMatch(m) && Unused(m) && PathsBelow(m) && TakesOut(m, ids, m', sealed)
    ensures FilesMatch(m') && Unused(m') && Preserves(m, m')
  {
  }

  /** Taking streams out leaves everything else as it was. */
  lemma TakenOut(c: Config, m: Machine, ids: set<StreamId>, m': Machine, sealed: Option<(StreamId, Path)>)
    requires MachineInv(c, m) && TakesOut(m, ids, m', sealed)
    ensures MachineInv(c, m') && Preserves(m, m')
  {
    FilesBelow(c, m);
    TakenOutStreams(c, m, ids, m', sealed);
    TakenOutFiles(c, m, ids, m', sealed);
    TakenOutRest(m, ids, m', sealed);
  }

  lemma SealInv(c: Config, m: Machine, id: StreamId, env: Env)
    requires MachineInv(c, m) && id in m.streams
    ensures var (m', r) := SealStream(c, m, id, env);
            && MachineInv(c, m') && Preserves(m, m')
            && (r.ReadyForUpload? ==> UploadOk(c, m', r.toUpload) && !Frozen(m, r.toUpload.file.path))
            && (r.ReadyForUpload? || r.Fatal?)
  {
    var (m', r) := SealStream(c, m, id, env);
    if r.ReadyForUpload? {
      TakenOut(c, m, {id}, m', Some((id, m.registry.files[id])));
      SealedUpload(c, m, id, env);
    } else {
      TakenOut(c, m, {id}, m', None);
    }
  }

  lemma SealedUpload(c: Config, m: Machine, id: StreamId, env: Env)
    requires MachineInv(c, m) && id in m.streams
    requires SealStream(c, m, id, env).1.ReadyForUpload?
    ensures var (m', r) := SealStream(c, m, id, env);
            UploadOk(c, m', r.toUpload) && !Frozen(m, r.toUpload.file.path)
  {
    var path := m.registry.files[id];
    assert StreamOk(c, m, id) && FileOk(c, m, id);
  }

  /** The uploads among some responses. */
  function Uploads(rs: seq<Response>): seq<ToUpload> {
    if rs == [] then []
    else Uploads(rs[..|rs| - 1]) + if rs[|rs| - 1].ReadyForUpload? then [rs[|rs| - 1].toUpload] else []
  }

  lemma UploadsSnoc(rs: seq<Response>, r: Response)
    ensures Uploads(rs + [r]) == Uploads(rs) + if r.ReadyForUpload? then [r.toUpload] else []
  {
    assert (rs + [r])[..|rs|] == rs;
  }

  /** A new upload joins a pool whose files were all frozen before it was sealed. */
  lemma PoolGrows(c: Config, m: Machine, m': Machine, pool: seq<ToUpload>, u: ToUpload)
    requires PoolOk(c, m, pool) && Preserves(m, m')
    requires UploadOk(c, m', u) && !Frozen(m, u.file.path)
    ensures PoolOk(c, m', pool + [u])
  {
    PoolKept(c, m, m', pool);
    forall i | 0 <= i < |pool|
      ensures pool[i].file.path != u.file.path
    {
      assert UploadOk(c, m, pool[i]);
    }
  }

  lemma SealNext(c: Config, m: Machine, id: StreamId, env: Env, pool: seq<ToUpload>, rs: seq<Response>)
    requires MachineInv(c, m) && id in m.streams && PoolOk(c, m, pool + Uploads(rs))
    ensures var (m', r) := SealStream(c, m, id, env);
            MachineInv(c, m') && Preserves(m, m') && PoolOk(c, m', pool + Uploads(rs + [r]))
  {
    SealInv(c, m, id, env);
    var (m', r) := SealStream(c, m, id, env);
    PoolNext(c, m, m', pool, rs, r);
  }

  lemma PoolNext(c: Config, m: Machine, m': Machine, pool: seq<ToUpload>, rs: seq<Response>, r: Response)
    requires PoolOk(c, m, pool + Uploads(rs)) && Preserves(m, m')
    requires r.ReadyForUpload? ==> UploadOk(c, m', r.toUpload) && !Frozen(m, r.toUpload.file.path)
    ensures PoolOk(c, m', pool + Uploads(rs + [r]))
  {
    UploadsSnoc(rs, r);
    if r.ReadyForUpload? {
      PoolGrows(c, m, m', pool + Uploads(rs), r.toUpload);
      assert pool + Uploads(rs) + [r.toUpload] == pool + Uploads(rs + [r]);
    } else {
      assert Uploads(rs + [r]) == Uploads(rs);
      PoolKept(c, m, m', pool + Uploads(rs));
    }
  }

  lemma {:induction false} SealAllInv(c: Config, m: Machine, ids: seq<StreamId>, env: Env, pool: seq<ToUpload>)
    requires MachineInv(c, m) && PoolOk(c, m, pool)
    ensures var (m', rs) := SealAll(c, m, ids, env);
            MachineInv(c, m') && Preserves(m, m') && PoolOk(c, m', pool + Uploads(rs))
  {
    if ids == [] {
      assert pool + [] == pool;
    } else {
      var (m1, rs) := SealAll(c, m, ids[..|ids| - 1], env);
      SealAllInv(c, m, ids[..|ids| - 1], env, pool);
      var id := ids[|ids| - 1];
      if id in m1.streams {
        SealNext(c, m1, id, env, pool, rs);
        PreservesTrans(m, m1, SealStream(c, m1, id, env).0);
      }
    }
  }

  lemma PreservesTrans(m: Machine, m1: Machine, m2: Machine)
    requires Preserves(m, m1) && Preserves(m1, m2)
    ensures Preserves(m, m2)
  {
  }

  // ----- all requests

  predicate NoFatal(rs: seq<Response>) {
    forall r | r in rs :: !r.Fatal?
  }

  /** The ways processing a record can go. */
  lemma ProcessCases(c: Config, m: Machine, r: Record, env: Env)
    ensures var (m', rs) := HandleProcessRecord(c, m, r, env);
            if c.route(r).None? then m' == m && !NoFatal(rs)
            else
              var id := c.route(r).value;
              var m1, m2 := Noted(m, r, id, env.now), Consumed(c, m, r, id, env.now);
              if c.line(r).Err? then m' == m1 && !NoFatal(rs)
              else if c.line(r).value.None? then m' == m2 && rs == []
              else if Refused(m.registry, id, env.writeFault) then
                && m'.registry == AfterWrite(m.registry, id, LineOf(c, r), env.writeFault)
                && m'.history == m1.history && !NoFatal(rs)
              else if ShouldSeal(c, m2, id) then
                m' == SealStream(c, m2, id, env).0 && rs == [RecordConsumed] + [SealStream(c, m2, id, env).1]
              else m' == m2 && rs == [RecordConsumed]
  {
    var rs := HandleProcessRecord(c, m, r, env).1;
    assert rs != [] && rs[0].Fatal? ==> rs[0] in rs;
  }

  lemma ProcessInv(c: Config, m: Machine, r: Record, env: Env, pool: seq<ToUpload>)
    requires MachineInv(c, m) && PoolOk(c, m, pool)
    ensures var (m', rs) := HandleProcessRecord(c, m, r, env);
            && Preserves(m, m')
            && (NoFatal(rs) ==> MachineInv(c, m') && PoolOk(c, m', pool + Uploads(rs)))
  {
    ProcessCases(c, m, r, env);
    if c.route(r).Some? {
      var id, m' := c.route(r).value, HandleProcessRecord(c, m, r, env).0;
      NotedPreserves(m, r, id, env.now);
      if c.line(r).Ok? {
        if c.line(r).value.Some? && Refused(m.registry, id, env.writeFault) {
          FailedPreserves(m, m', id, LineOf(c, r), env.writeFault);
        } else {
          WrittenInv(c, m, r, id, env, pool);
        }
      }
    }
  }

  /** A record that is skipped or written. */
  lemma WrittenInv(c: Config, m: Machine, r: Record, id: StreamId, env: Env, pool: seq<ToUpload>)
    requires MachineInv(c, m) && PoolOk(c, m, pool) && RoutedTo(c, r, id)
    requires c.line(r).value.Some? ==> !Refused(m.registry, id, env.writeFault)
    ensures var (m', rs) := HandleProcessRecord(c, m, r, env);
            && Preserves(m, m')
            && (NoFatal(rs) ==> MachineInv(c, m') && PoolOk(c, m', pool + Uploads(rs)))
  {
    ProcessCases(c, m, r, env);
    var m2 := Consumed(c, m, r, id, env.now);
    ConsumedInv(c, m, r, id, env.now);
    PoolKept(c, m, m2, pool);
    NoUploads(pool);
    if c.line(r).value.Some? && ShouldSeal(c, m2, id) {
      SealNext(c, m2, id, env, pool, [RecordConsumed]);
      PreservesTrans(m, m2, SealStream(c, m2, id, env).0);
    }
  }

  lemma NoUploads(pool: seq<ToUpload>)
    ensures pool + Uploads([]) == pool && pool + Uploads([RecordConsumed]) == pool
  {
    assert [RecordConsumed][..0] == [];
  }
}
