/** In every reachable state the streams, the registry and the outstanding uploads agree. */
module Agreement {
  import opened DataModel
  import opened Config
  import opened FileRegistry
  import opened Ledger
  import opened MachineModel
  import opened MachineInvariant
  import opened SinkModel
  import opened World
  import opened AtLeastOnce
  import opened Sealing

  predicate Skipped(c: Config, r: Record) {
    c.line(r) == Ok(None)
  }

  lemma {:induction false} EmptyContent(c: Config, rs: seq<Record>)
    requires forall r | r in rs :: c.line(r).Ok?
    ensures Content(c, rs) == [] <==> forall r | r in rs :: Skipped(c, r)
  {
    if rs != [] {
      var init, last := rs[..|rs| - 1], rs[|rs| - 1];
      assert rs == init + [last];
      EmptyContent(c, init);
      assert LineOf(c, last) == [] <==> Skipped(c, last);
    }
  }

  /** In every run the registry holds a file for exactly the streams that have consumed bytes, the byte
      count is the file's length, and the file holds the lines of exactly the records whose offsets the
      stream lists, in order. */
  lemma RegistryAgrees(c: Config, log: set<Record>, first: map<TopicId, int>, ws: seq<World>, es: seq<Event>,
                       i: nat, id: StreamId)
    requires IsRun(c, log, first, ws, es) && i < |ws| && !ws[i].sink.phase.Stopped?
    ensures var m := ws[i].sink.machine;
            && (id in m.registry.files <==> id in m.streams && m.streams[id].bytesConsumed > 0)
            && (id in m.streams ==>
                  var rs := Records(m.history.active, id);
                  && m.streams[id].offsetsConsumed == OffsetsOf(rs)
                  && m.streams[id].recordsConsumed == |rs| > 0
                  && m.streams[id].bytesConsumed == |Content(c, rs)|
                  && forall r | r in rs :: r in log && c.route(r) == Some(id) && c.line(r).Ok?)
            && (id in m.registry.files ==>
                  && m.registry.files[id] in m.registry.disk
                  && m.registry.disk[m.registry.files[id]] == Content(c, Records(m.history.active, id)))
  {
    ReachableOk(c, log, first, ws, es, i);
    var m := ws[i].sink.machine;
    assert id in m.streams ==> StreamOk(c, m, id);
    assert id in m.registry.files ==> FileOk(c, m, id);
  }

  /** Sealing a stream fails for want of a file exactly when every record in it was skipped. Otherwise
      it hands out an upload, unless closing the file fails. */
  lemma SealingOutcome(c: Config, log: set<Record>, first: map<TopicId, int>, ws: seq<World>, es: seq<Event>,
                       i: nat, id: StreamId, env: Env)
    requires IsRun(c, log, first, ws, es) && i < |ws| && !ws[i].sink.phase.Stopped?
    requires id in ws[i].sink.machine.streams
    ensures var m := ws[i].sink.machine;
            var r := SealStream(c, m, id, env).1;
            var rs := Records(m.history.active, id);
            && (r == Fatal(FileRegistry) <==> forall x | x in rs :: Skipped(c, x))
            && (r == Fatal(IO) <==> id in env.closeFails && exists x | x in rs :: !Skipped(c, x))
            && (r != Fatal(FileRegistry) && r != Fatal(IO) ==>
                  && r.ReadyForUpload? && r.toUpload.retries == c.maxUploadsRetry
                  && r.toUpload.file.offsetsConsumed == OffsetsOf(rs)
                  && r.toUpload.file.path in m.registry.disk
                  && m.registry.disk[r.toUpload.file.path] == Content(c, rs))
  {
    RegistryAgrees(c, log, first, ws, es, i, id);
    EmptyContent(c, Records(ws[i].sink.machine.history.active, id));
    SealAlone(c, ws[i].sink.machine, id, env);
  }

  lemma SealAlone(c: Config, m: Machine, id: StreamId, env: Env)
    requires id in m.streams
    ensures var r := SealStream(c, m, id, env).1;
            if id !in m.registry.files then r == Fatal(FileRegistry)
            else if id in env.closeFails then r == Fatal(IO)
            else
              && r.ReadyForUpload? && r.toUpload.retries == c.maxUploadsRetry
              && r.toUpload.file.path == m.registry.files[id]
              && r.toUpload.file.offsetsConsumed == m.streams[id].offsetsConsumed
  {
  }

  /** A stream created again starts with an empty file, on a path no other file has: nothing of an earlier
      stream of that name is left in it. */
  lemma RecreatedStreamStartsEmpty(c: Config, log: set<Record>, first: map<TopicId, int>, ws: seq<World>,
                                   es: seq<Event>, i: nat, r: Record, id: StreamId, now: int)
    requires IsRun(c, log, first, ws, es) && i < |ws| && !ws[i].sink.phase.Stopped?
    requires id !in ws[i].sink.machine.streams && RoutedTo(c, r, id) && !Skipped(c, r)
    ensures var m := ws[i].sink.machine;
            var m' := Consumed(c, m, r, id, now);
            && id in m'.registry.files
            && m'.registry.files[id] !in m.registry.disk
            && m'.registry.files[id] in m'.registry.disk
            && m'.registry.disk[m'.registry.files[id]] == LineOf(c, r)
            && forall p | p in m.registry.disk :: p in m'.registry.disk && m'.registry.disk[p] == m.registry.disk[p]
  {
    ReachableOk(c, log, first, ws, es, i);
    assert LineOf(c, r) != [];
    NewFile(ws[i].sink.machine, c, r, id, now);
  }

  lemma NewFile(m: Machine, c: Config, r: Record, id: StreamId, now: int)
    requires id !in m.registry.files && Unused(m) && LineOf(c, r) != []
    ensures var m' := Consumed(c, m, r, id, now);
            && id in m'.registry.files && m'.registry.files[id] == m.registry.next
            && m'.registry.disk == m.registry.disk[m.registry.next := LineOf(c, r)]
            && m.registry.next !in m.registry.disk
  {
  }

  /** In every run each outstanding upload still has its file, with the content it was sealed with, and no
      active stream and no other upload uses that file. */
  lemma OutstandingFilesSafe(c: Config, log: set<Record>, first: map<TopicId, int>, ws: seq<World>, es: seq<Event>,
                             i: nat, k: nat)
    requires IsRun(c, log, first, ws, es) && i < |ws| && !ws[i].sink.phase.Stopped?
    requires k < |ws[i].sink.pool|
    ensures var m, pool := ws[i].sink.machine, ws[i].sink.pool;
            var path := pool[k].file.path;
            && path in m.registry.disk && path in m.history.sealed
            && m.registry.disk[path] == Content(c, m.history.sealed[path])
            && pool[k].file.offsetsConsumed == OffsetsOf(m.history.sealed[path])
            && pool[k].file.recordCount == |m.history.sealed[path]|
            && pool[k].file.rawSizeB == |m.registry.disk[path]|
            && pool[k].retries <= c.maxUploadsRetry
            && (forall id | id in m.registry.files :: m.registry.files[id] != path)
            && (forall j | 0 <= j < |pool| && j != k :: pool[j].file.path != path)
  {
    ReachableOk(c, log, first, ws, es, i);
    assert UploadOk(c, ws[i].sink.machine, ws[i].sink.pool[k]);
  }

  /** In every run an offset marked as uploaded, stale or not, is that of a record that is safe in the store. */
  lemma MarkedOffsetsAreReal(c: Config, log: set<Record>, first: map<TopicId, int>, ws: seq<World>, es: seq<Event>,
                             i: nat, t: TopicId, r: Record)
    requires OneRecordAnOffset(log) && IsRun(c, log, first, ws, es) && i < |ws| && !ws[i].sink.phase.Stopped?
    requires r in log && r.Tid() == t && r.offset in UploadedOf(ws[i].sink.machine.uploaded, t)
    ensures Delivered(c, ws[i].store, r)
  {
    ReachableOk(c, log, first, ws, es, i);
    assert Stored(ws[i].store, t, r.offset);
    StoredDelivers(c, log, ws[i].store, r);
  }

  // ----- when a run ends

  /** The record fills its stream's file while the uploader has room. */
  predicate Fills(c: Config, m: Machine, r: Record, id: StreamId) {
    BytesIn(m, id) + |LineOf(c, r)| >= c.targetFileSizeB && m.inFlight < c.maxConcurrentUploads
  }

  /** In every run, a record ends it exactly when its topic is not configured, its payload does not decode, the
      disk fails to write its line, or the disk fails to close the file it fills; never for a missing file. */
  lemma RecordEndsRun(c: Config, log: set<Record>, first: map<TopicId, int>, ws: seq<World>, es: seq<Event>,
                      i: nat, r: Record, env: Env)
    requires IsRun(c, log, first, ws, es) && i < |ws| && !ws[i].sink.phase.Stopped?
    ensures var m := ws[i].sink.machine;
            var rs := HandleProcessRecord(c, m, r, env).1;
            && (!NoFatal(rs) <==>
                  || c.route(r).None? || c.line(r).Err?
                  || (!Skipped(c, r)
                      && (Refused(m.registry, c.route(r).value, env.writeFault) || (Fills(c, m, r, c.route(r).value) && c.route(r).value in env.closeFails))))
            && (c.line(r).Ok? ==> Fatal(FileRegistry) !in rs)
  {
    ReachableOk(c, log, first, ws, es, i);
    var m := ws[i].sink.machine;
    if c.route(r).Some? && c.line(r).Ok? {
      RoutedRecordEnds(c, m, r, c.route(r).value, env);
    } else {
      ProcessCases(c, m, r, env);
    }
  }

  lemma RecordResponses(c: Config, m: Machine, r: Record, id: StreamId, env: Env)
    requires RoutedTo(c, r, id)
    ensures var m2 := Consumed(c, m, r, id, env.now);
            && id in m2.streams
            && HandleProcessRecord(c, m, r, env).1
               == if Skipped(c, r) then []
                  else if Refused(m.registry, id, env.writeFault) then [Fatal(IO)]
                  else if ShouldSeal(c, m2, id) then [RecordConsumed, SealStream(c, m2, id, env).1]
                  else [RecordConsumed]
  {
  }

  lemma RoutedRecordEnds(c: Config, m: Machine, r: Record, id: StreamId, env: Env)
    requires MachineInv(c, m) && RoutedTo(c, r, id)
    ensures var rs := HandleProcessRecord(c, m, r, env).1;
            && (!NoFatal(rs) <==>
                  !Skipped(c, r) && (Refused(m.registry, id, env.writeFault) || (Fills(c, m, r, id) && id in env.closeFails)))
            && Fatal(FileRegistry) !in rs
  {
    RecordResponses(c, m, r, id, env);
    ConsumedCounts(c, m, r, id, env.now);
    HasFile(c, m, r, id, env.now);
    SealAlone(c, Consumed(c, m, r, id, env.now), id, env);
    FatalAmong(HandleProcessRecord(c, m, r, env).1);
  }

  lemma HasFile(c: Config, m: Machine, r: Record, id: StreamId, now: int)
    requires MachineInv(c, m) && RoutedTo(c, r, id)
    ensures !Skipped(c, r) ==> id in Consumed(c, m, r, id, now).registry.files
  {
    ConsumedFiles(c, m, r, id, now);
    ConsumedCounts(c, m, r, id, now);
    assert !Skipped(c, r) ==> LineOf(c, r) != [];
  }

  lemma FatalAmong(rs: seq<Response>)
    requires |rs| <= 2
    ensures !NoFatal(rs) <==> (|rs| > 0 && rs[0].Fatal?) || (|rs| > 1 && rs[1].Fatal?)
  {
    assert |rs| > 0 ==> rs[0] in rs;
    assert |rs| > 1 ==> rs[1] in rs;
  }
}
