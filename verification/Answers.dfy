/** What each request is answered with and what it leaves, said in terms of the state before it alone. */
module Answers {
  import opened DataModel
  import opened Config
  import opened FileRegistry
  import opened Ledger
  import opened MachineModel
  import opened SinkModel
  import opened Sealing
  import opened Agreement

  // ----- revocations

  /** The stream lists an offset of a partition that is kept. */
  predicate KeepsOne(st: StreamState, partitions: set<TopicId>) {
    exists t :: t in st.offsetsConsumed && t !in partitions
  }

  lemma {:induction false} DeletionsOf(files: map<StreamId, Path>, gone: set<StreamId>, order: seq<StreamId>, p: Path)
    ensures DeleteFile(p) in Deletions(files, gone, order)
            <==> exists id :: id in order && id in gone && id in files && files[id] == p
  {
    if order != [] {
      var init, last := order[..|order| - 1], order[|order| - 1];
      assert order == init + [last];
      DeletionsOf(files, gone, init, p);
      if DeleteFile(p) in Deletions(files, gone, order) && DeleteFile(p) !in Deletions(files, gone, init) {
        assert last in gone && last in files && files[last] == p;
      }
    }
  }

  lemma {:induction false} OnlyDeletions(files: map<StreamId, Path>, gone: set<StreamId>, order: seq<StreamId>)
    ensures forall r | r in Deletions(files, gone, order) :: r.DeleteFile?
  {
    if order != [] {
      OnlyDeletions(files, gone, order[..|order| - 1]);
    }
  }

  /** A stream stays exactly when it lists an offset of a partition that is kept; the others leave with their files,
      and the deletions asked for are of exactly those files. Exactly the revoked partitions are forgotten. */
  lemma RevocationAnswer(c: Config, m: Machine, partitions: set<TopicId>, env: Env)
    requires Visits(env.order, m.streams)
    ensures var (m', rs) := Handle(c, m, RevokePartitions(partitions), env);
            && (forall id :: id in m'.streams <==> id in m.streams && KeepsOne(m.streams[id], partitions))
            && (forall id | id in m'.streams :: m'.streams[id] == m.streams[id])
            && (forall id :: id in m'.registry.files
                  <==> id in m.registry.files && (id in m.streams ==> KeepsOne(m.streams[id], partitions)))
            && (forall id | id in m'.registry.files :: m'.registry.files[id] == m.registry.files[id])
            && m'.registry.disk == m.registry.disk && m'.inFlight == m.inFlight
            && (forall r | r in rs :: r.DeleteFile?)
            && forall t :: (t in m'.watermark <==> t in m.watermark && t !in partitions)
                           && (t in m'.uploaded <==> t in m.uploaded && t !in partitions)
    ensures forall p :: DeleteFile(p) in Handle(c, m, RevokePartitions(partitions), env).1
              <==> exists id :: id in m.registry.files && m.registry.files[id] == p
                                && id in m.streams && !KeepsOne(m.streams[id], partitions)
  {
    var gone := RevokedStreams(m.streams, partitions);
    GoneAre(m.streams, partitions);
    OnlyDeletions(m.registry.files, gone, env.order);
    forall p
      ensures DeleteFile(p) in Deletions(m.registry.files, gone, env.order)
              <==> exists id :: id in m.registry.files && m.registry.files[id] == p
                                && id in m.streams && !KeepsOne(m.streams[id], partitions)
    {
      DeletionsOf(m.registry.files, gone, env.order, p);
    }
  }

  lemma GoneAre(streams: map<StreamId, StreamState>, partitions: set<TopicId>)
    ensures forall id :: id in RevokedStreams(streams, partitions)
                         <==> id in streams && !KeepsOne(streams[id], partitions)
  {
  }

  // ----- seals

  /** Sealing takes the stream and its file out of the maps in any case; it adds an upload in flight exactly when it
      answers with one, and otherwise says what went wrong. The disk and what is tracked of offsets stay as they are. */
  lemma SealAnswer(c: Config, m: Machine, id: StreamId, env: Env)
    requires id in m.streams
    ensures var (m', r) := SealStream(c, m, id, env);
            && m'.streams == m.streams - {id} && m'.registry == m.registry.(files := m.registry.files - {id})
            && m'.uploaded == m.uploaded && m'.watermark == m.watermark
            && m'.inFlight == (if r.ReadyForUpload? then m.inFlight + 1 else m.inFlight)
            && (id !in m.registry.files <==> r == Fatal(SinkError.FileRegistry))
            && (id in m.registry.files && id in env.closeFails <==> r == Fatal(IO))
            && (id in m.registry.files && id !in env.closeFails <==> r.ReadyForUpload?)
            && (r.ReadyForUpload? ==>
                  var file := r.toUpload.file;
                  && file.path == m.registry.files[id]
                  && file.rawSizeB == m.streams[id].bytesConsumed
                  && file.recordCount == m.streams[id].recordsConsumed
                  && file.offsetsConsumed == m.streams[id].offsetsConsumed
                  && file.createdAt == m.streams[id].createdAt
                  && r.toUpload.objectKey == c.key(id, file.path) && r.toUpload.retries == c.maxUploadsRetry)
  {
  }

  // ----- completions

  /** A failed upload is handed out again with one retry less, everything else unchanged, as long as it has one; the
      last failure is fatal. A successful one adds its offsets and asks for the deletion of its file. A final outcome
      takes one off the counter, modulo 2^64. */
  lemma CompletionAnswer(c: Config, m: Machine, result: UploadResult, env: Env)
    requires m.inFlight < 0x1_0000_0000_0000_0000
    ensures var (m', rs) := Handle(c, m, UploadCompletion(result), env);
            match result
            case Failure(u) =>
              if u.retries > 0 then
                && m' == m && |rs| == 1 && rs[0].ReadyForUpload?
                && rs[0].toUpload.retries == u.retries - 1
                && rs[0].toUpload.objectKey == u.objectKey && rs[0].toUpload.file == u.file
              else
                && rs == [Fatal(S3Upload)]
                && m' == m.(inFlight := (m.inFlight + 0xFFFF_FFFF_FFFF_FFFF) % 0x1_0000_0000_0000_0000)
            case Success(path, os) =>
              && rs == [DeleteFile(path)]
              && m' == m.(uploaded := m'.uploaded,
                          inFlight := (m.inFlight + 0xFFFF_FFFF_FFFF_FFFF) % 0x1_0000_0000_0000_0000)
              && m'.uploaded.Keys == m.uploaded.Keys + os.Keys
              && forall t, o :: o in UploadedOf(m'.uploaded, t)
                                <==> o in UploadedOf(m.uploaded, t) || (t in os && o in os[t])
  {
    if m.inFlight > 0 {
      assert (m.inFlight + 0xFFFF_FFFF_FFFF_FFFF) % 0x1_0000_0000_0000_0000 == m.inFlight - 1;
    }
  }

  // ----- commits

  /** A commit tick is answered with an asynchronous commit and the final request with a synchronous one; both leave
      an entry of uploaded offsets for exactly the assigned partitions that have offsets left or no watermark. */
  lemma CommitAnswer(c: Config, m: Machine, assignment: set<TopicId>, env: Env)
    ensures var (m1, rs1) := Handle(c, m, CommitTick(assignment), env);
            var (m2, rs2) := Handle(c, m, FinalCommit(assignment), env);
            && m1 == m2 && |rs1| == 1 && |rs2| == 1
            && rs1[0].CommitAsync? && rs2[0].CommitSync? && rs1[0].tpl == rs2[0].tpl
            && m1 == m.(uploaded := m1.uploaded, watermark := m1.watermark)
            && (forall t :: t in m1.watermark <==> t in m.watermark)
            && (forall t | t in m.watermark ::
                  m1.watermark[t] == if t in rs1[0].tpl then rs1[0].tpl[t] else m.watermark[t])
            && (forall t :: t in m1.uploaded ==> t in m.uploaded && t in assignment)
            && (forall t | t in m.uploaded && t in assignment && t !in m.watermark ::
                  t in m1.uploaded && m1.uploaded[t] == m.uploaded[t])
            && (forall t | t in m1.uploaded && t in m.watermark :: m1.uploaded[t] != {})
  {
  }

  // ----- records

  /** The answer to a record, case by case. A record that is not configured changes nothing. */
  lemma RecordAnswer(c: Config, m: Machine, r: Record, env: Env)
    ensures var (m', rs) := Handle(c, m, ProcessRecord(r), env);
            if c.route(r).None? then rs == [Fatal(Configuration)] && m' == m
            else
              var id, line := c.route(r).value, c.line(r);
              if line.Err? then rs == [Fatal(line.error)]
              else if line.value.None? then rs == []
              else if env.writeFault.WriteFails? || (env.writeFault.CreateFails? && id !in m.registry.files) then
                rs == [Fatal(IO)]
              else
                && |rs| == (if BytesIn(m, id) + |line.value.value| >= c.targetFileSizeB
                               && m.inFlight < c.maxConcurrentUploads then 2 else 1)
                && rs[0] == RecordConsumed
  {
    if c.route(r).Some? && c.line(r).Ok? {
      RecordResponses(c, m, r, c.route(r).value, env);
      ConsumedCounts(c, m, r, c.route(r).value, env.now);
    }
  }

  // ----- what the loop asks

  /** The request for each event the loop wakes up to; only a finished upload changes the pool. */
  lemma PolledRequest(s: Sink, p: Polled)
    requires Pollable(s, p)
    ensures var (s', request) := Select(s, p);
            && (p.UploadTimer? ==> request == UploadTick)
            && (p.CommitTimer? ==> request == CommitTick(p.assignment))
            && (p.Received? ==> request == ProcessRecord(p.record))
            && (p.Terminated? ==> request == ShutdownSignal)
            && (!p.UploadDone? ==> s' == s)
            && (p.UploadDone? ==>
                  var u := s.pool[p.index];
                  && request == UploadCompletion(if p.ok then Success(u.file.path, u.file.offsetsConsumed) else Failure(u))
                  && s' == s.(pool := s'.pool) && |s'.pool| == |s.pool| - 1
                  && multiset(s.pool) == multiset(s'.pool) + multiset{u})
  {
    if p.UploadDone? {
      var i := p.index;
      assert s.pool == s.pool[..i] + [s.pool[i]] + s.pool[i + 1..];
    }
  }
}
