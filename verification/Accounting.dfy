/** Every consumed offset is accounted for, and so is every upload: what each request does to the books. */
module Accounting {
  import opened DataModel
  import opened Config
  import opened Ledger
  import opened MachineModel
  import opened MachineInvariant
  import opened SinkModel
  import opened Sums

  // ----- counting

  /** How often an offset of a partition is listed. */
  function Times(os: Offsets, t: TopicId, offset: int): nat {
    multiset(Listed(os, t))[offset]
  }

  function Occurrences(rs: seq<Record>, t: TopicId, offset: int): nat {
    if rs == [] then 0
    else
      var last := rs[|rs| - 1];
      Occurrences(rs[..|rs| - 1], t, offset) + if last.Tid() == t && last.offset == offset then 1 else 0
  }

  function InStream(t: TopicId, offset: int): StreamState -> nat {
    (st: StreamState) => Times(st.offsetsConsumed, t, offset)
  }

  function InUpload(t: TopicId, offset: int): ToUpload -> nat {
    (u: ToUpload) => Times(u.file.offsetsConsumed, t, offset)
  }

  function InRecords(t: TopicId, offset: int): seq<Record> -> nat {
    (rs: seq<Record>) => Occurrences(rs, t, offset)
  }

  ghost function InBatch(t: TopicId, offset: int): map<StreamId, seq<Record>> -> nat {
    (batch: map<StreamId, seq<Record>>) => MapSum(batch, InRecords(t, offset))
  }

  /** How often an offset is listed in the active streams. */
  ghost function ActiveTimes(m: Machine, t: TopicId, offset: int): nat {
    MapSum(m.streams, InStream(t, offset))
  }

  /** How often an offset was dropped by revocations. */
  ghost function DroppedTimes(m: Machine, t: TopicId, offset: int): nat {
    SeqSum(m.history.dropped, InBatch(t, offset))
  }

  lemma TimesPushed(os: Offsets, r: Record, t: TopicId, offset: int)
    ensures Times(Pushed(os, r.Tid(), r.offset), t, offset)
            == Times(os, t, offset) + if r.Tid() == t && r.offset == offset then 1 else 0
  {
  }

  lemma {:induction false} TimesOf(rs: seq<Record>, t: TopicId, offset: int)
    ensures Times(OffsetsOf(rs), t, offset) == Occurrences(rs, t, offset)
  {
    if rs != [] {
      TimesOf(rs[..|rs| - 1], t, offset);
      TimesPushed(OffsetsOf(rs[..|rs| - 1]), rs[|rs| - 1], t, offset);
    }
  }

  // ----- each step keeps the books balanced

  /** One state follows another with some uploads handed out in between: whatever was consumed is
      listed in a stream, was dropped, or is listed in an upload. */
  ghost predicate Balances(m: Machine, m': Machine, returned: seq<ToUpload>, out: seq<ToUpload>) {
    forall t, o ::
      Occurrences(m'.history.consumed, t, o) + ActiveTimes(m, t, o) + DroppedTimes(m, t, o)
      + SeqSum(returned, InUpload(t, o))
      == Occurrences(m.history.consumed, t, o) + ActiveTimes(m', t, o) + DroppedTimes(m', t, o)
         + SeqSum(out, InUpload(t, o))
  }

  lemma ConsumedShape(c: Config, m: Machine, r: Record, id: StreamId, now: int)
    ensures var m' := Consumed(c, m, r, id, now);
            && id in m'.streams && m'.streams == m.streams[id := m'.streams[id]]
            && m'.streams[id].offsetsConsumed
               == Pushed(if id in m.streams then m.streams[id].offsetsConsumed else map[], r.Tid(), r.offset)
            && m'.history.consumed == m.history.consumed + [r]
            && m'.history.dropped == m.history.dropped && m'.inFlight == m.inFlight
  {
  }

  lemma ConsumedBalance(m: Machine, m': Machine, r: Record, id: StreamId, t: TopicId, o: int)
    requires id in m'.streams && m'.streams == m.streams[id := m'.streams[id]]
    requires m'.streams[id].offsetsConsumed
             == Pushed(if id in m.streams then m.streams[id].offsetsConsumed else map[], r.Tid(), r.offset)
    requires m'.history.consumed == m.history.consumed + [r]
    ensures Occurrences(m'.history.consumed, t, o) + ActiveTimes(m, t, o)
            == Occurrences(m.history.consumed, t, o) + ActiveTimes(m', t, o)
  {
    TimesPushed(if id in m.streams then m.streams[id].offsetsConsumed else map[], r, t, o);
    MapSumUpdate(m.streams, InStream(t, o), id, m'.streams[id]);
    assert m'.history.consumed[..|m.history.consumed|] == m.history.consumed;
  }

  lemma ConsumedBalances(c: Config, m: Machine, r: Record, id: StreamId, now: int)
    ensures Balances(m, Consumed(c, m, r, id, now), [], [])
  {
    ConsumedShape(c, m, r, id, now);
    var m' := Consumed(c, m, r, id, now);
    forall t, o
      ensures Occurrences(m'.history.consumed, t, o) + ActiveTimes(m, t, o)
              == Occurrences(m.history.consumed, t, o) + ActiveTimes(m', t, o)
    {
      ConsumedBalance(m, m', r, id, t, o);
    }
  }

  lemma SealBalances(c: Config, m: Machine, id: StreamId, env: Env)
    requires id in m.streams && SealStream(c, m, id, env).1.ReadyForUpload?
    ensures var (m', r) := SealStream(c, m, id, env); Balances(m, m', [], [r.toUpload])
  {
    var (m', r) := SealStream(c, m, id, env);
    forall t, o
      ensures ActiveTimes(m, t, o) == ActiveTimes(m', t, o) + SeqSum([r.toUpload], InUpload(t, o))
    {
      MapSumPick(m.streams, InStream(t, o), id);
      SeqSumOne(r.toUpload, InUpload(t, o));
    }
  }

  lemma BalancesTrans(m: Machine, m1: Machine, m2: Machine, returned: seq<ToUpload>, out1: seq<ToUpload>,
                      out2: seq<ToUpload>)
    requires Balances(m, m1, returned, out1) && Balances(m1, m2, [], out2)
    ensures Balances(m, m2, returned, out1 + out2)
  {
    forall t, o
      ensures SeqSum(out1 + out2, InUpload(t, o)) == SeqSum(out1, InUpload(t, o)) + SeqSum(out2, InUpload(t, o))
    {
      SeqSumConcat(out1, out2, InUpload(t, o));
    }
  }

  /** Nothing is consumed, no stream changes, nothing is dropped. */
  lemma QuietBalances(m: Machine, m': Machine)
    requires m'.streams == m.streams && m'.history == m.history
    ensures Balances(m, m', [], [])
  {
  }

  /** What a revocation drops was listed in the streams it takes out. */
  lemma RevokedBalances(c: Config, m: Machine, partitions: set<TopicId>)
    requires StreamsOk(c, m) && NoStrays(m)
    ensures Balances(m, Revoked(m, partitions), [], [])
  {
    var gone, m' := RevokedStreams(m.streams, partitions), Revoked(m, partitions);
    var batch := map id | id in m.history.active && id in gone :: m.history.active[id];
    var taken := map id | id in m.streams && id in gone :: m.streams[id];
    forall t, o
      ensures ActiveTimes(m, t, o) + DroppedTimes(m, t, o) == ActiveTimes(m', t, o) + DroppedTimes(m', t, o)
    {
      MapSumSplit(m.streams, gone, InStream(t, o));
      forall id | id in taken
        ensures InStream(t, o)(taken[id]) == InRecords(t, o)(batch[id])
      {
        assert StreamOk(c, m, id);
        TimesOf(batch[id], t, o);
      }
      MapSumSame(taken, InStream(t, o), batch, InRecords(t, o));
      SeqSumConcat(m.history.dropped, [batch], InBatch(t, o));
      SeqSumOne(batch, InBatch(t, o));
    }
  }

  // ----- uploads in flight, and how far the work can go on

  function Chances(): ToUpload -> nat {
    (u: ToUpload) => u.retries + 1
  }

  /** A bound on the seals and completions still to come when no records arrive. */
  function Measure(c: Config, m: Machine, pool: seq<ToUpload>): nat {
    (c.maxUploadsRetry + 2) * |m.streams| + SeqSum(pool, Chances())
  }

  /** What sealing some streams does to the books, unless one of them cannot be closed. */
  ghost predicate Sealing(c: Config, m: Machine, m': Machine, rs: seq<Response>, most: nat) {
    NoFatal(rs) ==>
      && Balances(m, m', [], Uploads(rs))
      && m'.inFlight == m.inFlight + |Uploads(rs)| && |Uploads(rs)| <= most
      && Measure(c, m', Uploads(rs)) + |Uploads(rs)| <= Measure(c, m, [])
      && m'.history.dropped == m.history.dropped
  }

  lemma OneFewer(k: nat, n: nat)
    requires n > 0
    ensures k * (n - 1) == k * n - k
  {
  }

  lemma {:induction false} SealAllAccounts(c: Config, m: Machine, ids: seq<StreamId>, env: Env)
    ensures var (m', rs) := SealAll(c, m, ids, env); Sealing(c, m, m', rs, |ids|)
  {
    if ids == [] {
      QuietBalances(m, m);
    } else {
      var (m1, rs) := SealAll(c, m, ids[..|ids| - 1], env);
      SealAllAccounts(c, m, ids[..|ids| - 1], env);
      var id := ids[|ids| - 1];
      if id in m1.streams {
        SealOneMore(c, m, m1, rs, id, env, |ids| - 1);
      }
    }
  }

  lemma SealOneMore(c: Config, m: Machine, m1: Machine, rs: seq<Response>, id: StreamId, env: Env, most: nat)
    requires Sealing(c, m, m1, rs, most) && id in m1.streams
    ensures var (m2, r) := SealStream(c, m1, id, env); Sealing(c, m, m2, rs + [r], most + 1)
  {
    var (m2, r) := SealStream(c, m1, id, env);
    SealResponse(c, m1, id, env);
    if r.ReadyForUpload? {
      SealBalances(c, m1, id, env);
      SealingNext(c, m, m1, m2, rs, r, most);
    } else {
      assert r in rs + [r];
    }
  }

  lemma SealingNext(c: Config, m: Machine, m1: Machine, m2: Machine, rs: seq<Response>, r: Response, most: nat)
    requires Sealing(c, m, m1, rs, most) && r.ReadyForUpload? && Balances(m1, m2, [], [r.toUpload])
    requires m2.inFlight == m1.inFlight + 1 && m2.history.dropped == m1.history.dropped
    requires r.toUpload.retries == c.maxUploadsRetry && |m1.streams| > 0 && |m2.streams| == |m1.streams| - 1
    ensures Sealing(c, m, m2, rs + [r], most + 1)
  {
    UploadsSnoc(rs, r);
    if NoFatal(rs + [r]) {
      assert forall x | x in rs :: x in rs + [r];
      BalancesTrans(m, m1, m2, [], Uploads(rs), [r.toUpload]);
      SeqSumConcat(Uploads(rs), [r.toUpload], Chances());
      SeqSumOne(r.toUpload, Chances());
      OneFewer(c.maxUploadsRetry + 2, |m1.streams|);
    }
  }

  lemma ProcessAccounts(c: Config, m: Machine, r: Record, env: Env)
    ensures var (m', rs) := HandleProcessRecord(c, m, r, env);
            NoFatal(rs) ==>
              && Balances(m, m', [], Uploads(rs))
              && m'.inFlight == m.inFlight + |Uploads(rs)|
              && (Uploads(rs) != [] ==> m'.inFlight <= c.maxConcurrentUploads)
              && m'.history.dropped == m.history.dropped
  {
    ProcessCases(c, m, r, env);
    var (m', rs) := HandleProcessRecord(c, m, r, env);
    NoUploads([]);
    if NoFatal(rs) {
      var id := c.route(r).value;
      var m2 := Consumed(c, m, r, id, env.now);
      ConsumedBalances(c, m, r, id, env.now);
      assert m2.inFlight == m.inFlight;
      if rs != [] && |rs| > 1 {
        var response := rs[1];
        UploadsSnoc([RecordConsumed], response);
        assert response in rs;
        SealResponse(c, m2, id, env);
        SealBalances(c, m2, id, env);
        BalancesTrans(m, m2, m', [], [], [response.toUpload]);
      }
    }
  }

  lemma SealResponse(c: Config, m: Machine, id: StreamId, env: Env)
    requires id in m.streams
    ensures var (m', r) := SealStream(c, m, id, env);
            && (r.ReadyForUpload? || r.Fatal?)
            && (r.ReadyForUpload? ==> m'.inFlight == m.inFlight + 1 && r.toUpload.retries == c.maxUploadsRetry)
            && |m'.streams| == |m.streams| - 1
            && m'.history.dropped == m.history.dropped
  {
  }

  // ----- all requests

  /** What a request does to the books, unless it is fatal. */
  ghost predicate Accounts(c: Config, m: Machine, request: Request, m': Machine, rs: seq<Response>) {
    NoFatal(rs) ==>
      && Balances(m, m', Reported(request), Uploads(rs))
      && m'.history.dropped == m.history.dropped
      && (if request.UploadCompletion? && request.result.Success? then
            m'.inFlight == Decremented(m.inFlight) && Uploads(rs) == []
          else if request.UploadCompletion? then
            m'.inFlight == m.inFlight && |Uploads(rs)| == 1
          else
            m'.inFlight == m.inFlight + |Uploads(rs)|)
      && (!request.ShutdownSignal? && m.inFlight <= c.maxConcurrentUploads
          && (request.UploadCompletion? ==> m.inFlight > 0) ==>
            m'.inFlight <= c.maxConcurrentUploads)
      && (!request.ProcessRecord? ==>
            Measure(c, m', Uploads(rs)) + |Uploads(rs)| <= Measure(c, m, Reported(request)))
  }

  lemma SuccessAccounts(c: Config, m: Machine, m': Machine, result: UploadResult, r: Response)
    requires result.Success? && r.DeleteFile?
    requires m'.streams == m.streams && m'.history == m.history && m'.inFlight == Decremented(m.inFlight)
    ensures Accounts(c, m, UploadCompletion(result), m', [r])
  {
    QuietBalances(m, m');
    UploadsSnoc([], r);
    assert [] + [r] == [r];
  }

  lemma FailureAccounts(c: Config, m: Machine, u: ToUpload, rs: seq<Response>)
    requires u.retries > 0 && Uploads(rs) == [u.Decrement()] && Balances(m, m, [u], [u.Decrement()])
    requires SeqSum([u], Chances()) == u.retries + 1 && SeqSum([u.Decrement()], Chances()) == u.retries
    ensures Accounts(c, m, UploadCompletion(Failure(u)), m, rs)
  {
  }

  lemma OneUpload(u: ToUpload)
    ensures Uploads([ReadyForUpload(u)]) == [u]
  {
    UploadsSnoc([], ReadyForUpload(u));
    assert [] + [ReadyForUpload(u)] == [ReadyForUpload(u)];
  }

  lemma CompletionAccounts(c: Config, m: Machine, result: UploadResult)
    ensures var (m', rs) := HandleUploadCompletion(m, result); Accounts(c, m, UploadCompletion(result), m', rs)
  {
    var m' := HandleUploadCompletion(m, result).0;
    match result
    case Success(path, os) => SuccessAccounts(c, m, m', result, DeleteFile(path));
    case Failure(u) =>
      if u.retries > 0 {
        OneUpload(u.Decrement());
        QuietBalances(m, m);
        RetryAccounts(m, m, u);
        FailureAccounts(c, m, u, [ReadyForUpload(u.Decrement())]);
      } else {
        FatalAccounts(c, m, UploadCompletion(result), m', Fatal(S3Upload));
      }
  }

  lemma FatalAccounts(c: Config, m: Machine, request: Request, m': Machine, r: Response)
    requires r.Fatal?
    ensures Accounts(c, m, request, m', [r])
  {
    assert r in [r];
  }

  lemma RetryAccounts(m: Machine, m': Machine, u: ToUpload)
    requires Balances(m, m', [], []) && u.retries > 0
    ensures Balances(m, m', [u], [u.Decrement()])
    ensures SeqSum([u], Chances()) == u.retries + 1 && SeqSum([u.Decrement()], Chances()) == u.retries
  {
    forall t, o
      ensures SeqSum([u], InUpload(t, o)) == SeqSum([u.Decrement()], InUpload(t, o))
    {
      SeqSumOne(u, InUpload(t, o));
      SeqSumOne(u.Decrement(), InUpload(t, o));
    }
    SeqSumOne(u, Chances());
    SeqSumOne(u.Decrement(), Chances());
  }

  lemma SealingAccounts(c: Config, m: Machine, m': Machine, rs: seq<Response>, most: nat, request: Request)
    requires Sealing(c, m, m', rs, most) && (request.UploadTick? || request.ShutdownSignal?)
    requires request.UploadTick? && m.inFlight <= c.maxConcurrentUploads ==> m.inFlight + most <= c.maxConcurrentUploads
    ensures Accounts(c, m, request, m', rs)
  {
  }

  lemma TickAccounts(c: Config, m: Machine, env: Env)
    ensures var (m', rs) := HandleUploadTick(c, m, env); Accounts(c, m, UploadTick, m', rs)
  {
    var ids, m', rs := TickSeals(c, m, env);
    SealingAccounts(c, m, m', rs, |ids|, UploadTick);
  }

  lemma TickSeals(c: Config, m: Machine, env: Env) returns (ids: seq<StreamId>, m': Machine, rs: seq<Response>)
    ensures (m', rs) == HandleUploadTick(c, m, env) && Sealing(c, m, m', rs, |ids|)
    ensures m.inFlight <= c.maxConcurrentUploads ==> m.inFlight + |ids| <= c.maxConcurrentUploads
  {
    ids := Due(c, m, env);
    m', rs := SealAll(c, m, ids, env).0, SealAll(c, m, ids, env).1;
    SealAllAccounts(c, m, ids, env);
  }

  lemma ShutdownAccounts(c: Config, m: Machine, env: Env)
    ensures var (m', rs) := HandleShutdownSignal(c, m, env); Accounts(c, m, ShutdownSignal, m', rs)
  {
    SealAllAccounts(c, m, env.order, env);
    var (m', rs) := SealAll(c, m, env.order, env);
    ThenDrains(c, m, m', rs, |env.order|);
  }

  lemma ThenDrains(c: Config, m: Machine, m': Machine, rs: seq<Response>, most: nat)
    requires Sealing(c, m, m', rs, most)
    ensures Accounts(c, m, ShutdownSignal, m', rs + [DrainAndShutdown])
  {
    UploadsSnoc(rs, DrainAndShutdown);
    var all := rs + [DrainAndShutdown];
    assert forall r | r in rs :: r in all;
    assert Uploads(all) == Uploads(rs);
  }

  lemma QuietAccounts(c: Config, m: Machine, m': Machine, request: Request, r: Response)
    requires m'.streams == m.streams && m'.history == m.history && m'.inFlight == m.inFlight
    requires !request.UploadCompletion? && (r.CommitAsync? || r.CommitSync?)
    ensures Accounts(c, m, request, m', [r])
  {
    QuietBalances(m, m');
    UploadsSnoc([], r);
    assert [] + [r] == [r];
  }

  lemma CommitAccounts(c: Config, m: Machine, assignment: set<TopicId>, request: Request, r: Response)
    requires (request.CommitTick? || request.FinalCommit?) && (r.CommitAsync? || r.CommitSync?)
    ensures Accounts(c, m, request, Committed(m, assignment), [r])
  {
    var m' := Committed(m, assignment);
    assert m'.streams == m.streams && m'.history == m.history && m'.inFlight == m.inFlight;
    QuietAccounts(c, m, m', request, r);
  }

  lemma RecordAccounts(c: Config, m: Machine, r: Record, env: Env)
    ensures var (m', rs) := HandleProcessRecord(c, m, r, env); Accounts(c, m, ProcessRecord(r), m', rs)
  {
    ProcessAccounts(c, m, r, env);
  }

  lemma RequestAccounts(c: Config, m: Machine, request: Request, env: Env)
    requires !request.RevokePartitions?
    ensures var (m', rs) := Handle(c, m, request, env); Accounts(c, m, request, m', rs)
  {
    match request
    case ProcessRecord(r) => RecordAccounts(c, m, r, env);
    case UploadTick => TickAccounts(c, m, env);
    case CommitTick(a) => CommitAccounts(c, m, a, request, CommitAsync(CommitListOf(m, a)));
    case FinalCommit(a) => CommitAccounts(c, m, a, request, CommitSync(CommitListOf(m, a)));
    case UploadCompletion(result) => CompletionAccounts(c, m, result);
    case ShutdownSignal => ShutdownAccounts(c, m, env);
  }
}
