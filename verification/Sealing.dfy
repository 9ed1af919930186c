/** When files are sealed: by size, by age, and at shutdown. */
module Sealing {
  import opened DataModel
  import opened Config
  import opened Ledger
  import opened MachineModel
  import opened MachineInvariant
  import opened StateMachine

  function BytesIn(m: Machine, id: StreamId): nat {
    if id in m.streams then m.streams[id].bytesConsumed else 0
  }

  function RecordsIn(m: Machine, id: StreamId): nat {
    if id in m.streams then m.streams[id].recordsConsumed else 0
  }

  /** A stream is as old as its first record. */
  function CreatedAt(m: Machine, id: StreamId, now: int): int {
    if id in m.streams then m.streams[id].createdAt else now
  }

  /** A written record seals its file exactly when the file has reached its size and the uploader has room; a
      skipped one never does. The other streams stay as they are. */
  lemma SealedBySize(c: Config, m: Machine, r: Record, env: Env)
    requires c.route(r).Some?
    ensures var (m', rs) := HandleProcessRecord(c, m, r, env);
            var id := c.route(r).value;
            NoFatal(rs) ==>
              && (id !in m'.streams <==>
                    && LineOf(c, r) != []
                    && BytesIn(m, id) + |LineOf(c, r)| >= c.targetFileSizeB
                    && m.inFlight < c.maxConcurrentUploads)
              && (id !in m'.streams ==>
                    && |rs| == 2 && rs[1].ReadyForUpload?
                    && rs[1].toUpload.file.rawSizeB == BytesIn(m, id) + |LineOf(c, r)|
                    && rs[1].toUpload.file.recordCount == RecordsIn(m, id) + 1
                    && rs[1].toUpload.file.createdAt == CreatedAt(m, id, env.now)
                    && rs[1].toUpload.retries == c.maxUploadsRetry)
              && (id in m'.streams ==>
                    && m'.streams[id].createdAt == CreatedAt(m, id, env.now)
                    && BytesIn(m', id) == BytesIn(m, id) + |LineOf(c, r)|
                    && RecordsIn(m', id) == RecordsIn(m, id) + 1)
              && m'.streams - {id} == m.streams - {id}
  {
    ProcessCases(c, m, r, env);
    var (m', rs) := HandleProcessRecord(c, m, r, env);
    if NoFatal(rs) {
      var id := c.route(r).value;
      var m2 := Consumed(c, m, r, id, env.now);
      ConsumedCounts(c, m, r, id, env.now);
      assert c.line(r).value.None? <==> LineOf(c, r) == [];
      if LineOf(c, r) != [] && ShouldSeal(c, m2, id) {
        SealedFileOf(c, m2, id, env);
        assert rs[1] in rs;
      }
    }
  }

  lemma ConsumedCounts(c: Config, m: Machine, r: Record, id: StreamId, now: int)
    ensures var m' := Consumed(c, m, r, id, now);
            && id in m'.streams && m'.streams - {id} == m.streams - {id} && m'.inFlight == m.inFlight
            && m'.streams[id].bytesConsumed == BytesIn(m, id) + |LineOf(c, r)|
            && m'.streams[id].recordsConsumed == RecordsIn(m, id) + 1
            && m'.streams[id].createdAt == CreatedAt(m, id, now)
  {
  }

  lemma SealedFileOf(c: Config, m: Machine, id: StreamId, env: Env)
    requires id in m.streams
    ensures var (m', r) := SealStream(c, m, id, env);
            && m'.streams == m.streams - {id}
            && (r.ReadyForUpload? || r.Fatal?)
            && (r.ReadyForUpload? ==>
                  && r.toUpload.file.rawSizeB == m.streams[id].bytesConsumed
                  && r.toUpload.file.recordCount == m.streams[id].recordsConsumed
                  && r.toUpload.file.createdAt == m.streams[id].createdAt
                  && r.toUpload.retries == c.maxUploadsRetry)
  {
  }

  lemma {:induction false} DormantComplete(m: Machine, order: seq<StreamId>, cutOff: int, capacity: nat)
    requires Distinct(order)
    ensures var ids := Dormant(m, order, cutOff, capacity);
            && Distinct(ids)
            && (|ids| < capacity ==>
                  forall id | id in order && id in m.streams && m.streams[id].createdAt <= cutOff :: id in ids)
  {
    if order != [] {
      var init, last := order[..|order| - 1], order[|order| - 1];
      DormantComplete(m, init, cutOff, capacity);
      DormantFrom(m, init, cutOff, capacity);
      assert order == init + [last];
      assert last !in Dormant(m, init, cutOff, capacity);
    }
  }

  lemma {:induction false} SealedOneByOne(c: Config, m: Machine, ids: seq<StreamId>, env: Env)
    requires Distinct(ids) && forall id | id in ids :: id in m.streams
    ensures |SealAll(c, m, ids, env).1| == |ids|
  {
    if ids != [] {
      var init, last := ids[..|ids| - 1], ids[|ids| - 1];
      assert forall id | id in init :: id in ids;
      SealedOneByOne(c, m, init, env);
      SealAllFrame(c, m, init, env);
      assert last in ids && last !in init;
    }
  }

  /** An upload tick takes out only streams created by the cut-off, one response each and no more than there is
      room for under the limit on uploads; if room is left, no such stream remains. The other streams stay as they are. */
  lemma SealedByAge(c: Config, m: Machine, env: Env)
    requires Visits(env.order, m.streams)
    ensures var (m', rs) := HandleUploadTick(c, m, env);
            var cutOff := env.now - c.maxActiveFileTimeoutMs;
            && (forall id | id in m'.streams :: id in m.streams && m'.streams[id] == m.streams[id])
            && (forall id | id in m.streams && id !in m'.streams :: m.streams[id].createdAt <= cutOff)
            && (m.inFlight + |rs| <= c.maxConcurrentUploads || rs == [])
            && (m.inFlight + |rs| < c.maxConcurrentUploads ==>
                  forall id | id in m'.streams :: m'.streams[id].createdAt > cutOff)
            && |m.streams| == |m'.streams| + |rs|
  {
    var ids := DueStreams(c, m, env);
    SealAllFrame(c, m, ids, env);
    SealsCounted(c, m, ids, env);
  }

  /** The streams an upload tick seals: old ones, up to the limit, all of them if the limit is not reached. */
  lemma DueStreams(c: Config, m: Machine, env: Env) returns (ids: seq<StreamId>)
    requires Visits(env.order, m.streams)
    ensures HandleUploadTick(c, m, env) == SealAll(c, m, ids, env) && |SealAll(c, m, ids, env).1| == |ids|
    ensures forall id | id in ids :: id in m.streams && m.streams[id].createdAt <= env.now - c.maxActiveFileTimeoutMs
    ensures m.inFlight + |ids| <= c.maxConcurrentUploads || ids == []
    ensures m.inFlight + |ids| < c.maxConcurrentUploads ==>
              forall id | id in m.streams && m.streams[id].createdAt <= env.now - c.maxActiveFileTimeoutMs :: id in ids
  {
    var cutOff := env.now - c.maxActiveFileTimeoutMs;
    ids := Dormant(m, env.order, cutOff, Room(c, m));
    DormantComplete(m, env.order, cutOff, Room(c, m));
    DormantFrom(m, env.order, cutOff, Room(c, m));
    SealedOneByOne(c, m, ids, env);
  }

  /** Every answer of a seal stands for one stream taken out. */
  lemma {:induction false} SealsCounted(c: Config, m: Machine, ids: seq<StreamId>, env: Env)
    ensures var (m', rs) := SealAll(c, m, ids, env); |m.streams| == |m'.streams| + |rs|
  {
    if ids != [] {
      var init, id := ids[..|ids| - 1], ids[|ids| - 1];
      SealsCounted(c, m, init, env);
      var m1 := SealAll(c, m, init, env).0;
      if id in m1.streams {
        assert |m1.streams - {id}| == |m1.streams| - 1;
      }
    }
  }

  /** A shutdown signal takes out every stream, whatever the limit on uploads, and then asks for the drain. */
  lemma SealedAtShutdown(c: Config, m: Machine, env: Env)
    requires Visits(env.order, m.streams)
    ensures var (m', rs) := HandleShutdownSignal(c, m, env);
            m'.streams == map[] && rs != [] && rs[|rs| - 1] == DrainAndShutdown
  {
    SealAllFrame(c, m, env.order, env);
  }

  // ----- when sealing is fatal

  /** Every stream can be sealed: it has a file, and closing it does not fail. */
  predicate Sealable(m: Machine, ids: seq<StreamId>, env: Env) {
    forall id | id in ids && id in m.streams :: id in m.registry.files && id !in env.closeFails
  }

  predicate Distinct(ids: seq<StreamId>) {
    forall i, j | 0 <= i < j < |ids| :: ids[i] != ids[j]
  }

  /** Sealing meets no fatal error exactly when every stream can be sealed. */
  lemma {:induction false} SealAllSucceeds(c: Config, m: Machine, ids: seq<StreamId>, env: Env)
    requires Distinct(ids)
    ensures NoFatal(SealAll(c, m, ids, env).1) <==> Sealable(m, ids, env)
  {
    if ids != [] {
      var init, id := ids[..|ids| - 1], ids[|ids| - 1];
      assert ids == init + [id] && id !in init;
      SealAllSucceeds(c, m, init, env);
      SealAllFrame(c, m, init, env);
      var (m1, rs) := SealAll(c, m, init, env);
      if id in m1.streams {
        SealFatal(c, m1, id, env);
        var r := SealStream(c, m1, id, env).1;
        assert NoFatal(rs + [r]) <==> NoFatal(rs) && !r.Fatal?;
      }
    }
  }

  lemma SealFatal(c: Config, m: Machine, id: StreamId, env: Env)
    requires id in m.streams
    ensures SealStream(c, m, id, env).1.Fatal? <==> id !in m.registry.files || id in env.closeFails
  {
  }
}
