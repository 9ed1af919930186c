/** The books over whole runs: conservation of offsets, uploads in flight, bounded work. */
module Books {
  import opened DataModel
  import opened Config
  import opened FileRegistry
  import opened Ledger
  import opened MachineModel
  import opened MachineInvariant
  import opened SinkModel
  import opened World
  import opened WorldInvariant
  import opened AtLeastOnce
  import opened Accounting
  import opened Sums

  /** Every record dropped by a revocation belongs to a revoked partition. */
  ghost predicate DroppedWithin(m: Machine, revoked: set<TopicId>) {
    forall batch, id, r: Record | batch in m.history.dropped && id in batch && r in batch[id] :: r.Tid() in revoked
  }

  /** Every consumed offset is listed in an active stream, was dropped, or is listed in an upload. */
  ghost predicate Conserved(w: World) {
    forall t, o ::
      Occurrences(w.sink.machine.history.consumed, t, o)
      == ActiveTimes(w.sink.machine, t, o) + DroppedTimes(w.sink.machine, t, o)
         + SeqSum(w.sink.pool, InUpload(t, o))
         + SeqSum(w.landed, InUpload(t, o)) + SeqSum(w.discarded, InUpload(t, o))
  }

  /** Until the drain the counter is the number of outstanding uploads, within the limit. The drain
      leaves it too high by one for each failed upload that had retries left. */
  predicate InFlightOk(c: Config, w: World) {
    match w.sink.phase
    case Running => w.sink.machine.inFlight == |w.sink.pool| <= c.maxConcurrentUploads && w.discarded == []
    case Draining => w.sink.machine.inFlight == |w.sink.pool| + |w.discarded|
    case Stopped => true
  }

  ghost predicate Booked(c: Config, w: World) {
    && Conserved(w) && InFlightOk(c, w)
    && (forall ts | ts in w.pending :: ts <= w.revoked)
    && DroppedWithin(w.sink.machine, w.revoked)
  }

  // ----- revocations

  lemma RevokedWithin(c: Config, m: Machine, partitions: set<TopicId>, revoked: set<TopicId>)
    requires StreamsOk(c, m) && NoStrays(m) && DroppedWithin(m, revoked) && partitions <= revoked
    ensures DroppedWithin(Revoked(m, partitions), revoked)
  {
    var gone, m' := RevokedStreams(m.streams, partitions), Revoked(m, partitions);
    var batch := map id | id in m.history.active && id in gone :: m.history.active[id];
    forall id, r: Record | id in batch && r in batch[id]
      ensures r.Tid() in revoked
    {
      assert StreamOk(c, m, id);
      OffsetsKeys(batch[id], r.Tid());
    }
    assert m'.history.dropped == m.history.dropped + [batch];
  }

  lemma {:induction false} RevocationsBooked(c: Config, m: Machine, pool: seq<ToUpload>, pending: seq<set<TopicId>>,
                                             env: Env, revoked: set<TopicId>)
    requires MachineInv(c, m) && PoolOk(c, m, pool)
    requires DroppedWithin(m, revoked) && forall ts | ts in pending :: ts <= revoked
    ensures var m' := AfterRevocations(m, pending, env);
            && MachineInv(c, m') && PoolOk(c, m', pool)
            && Balances(m, m', [], []) && DroppedWithin(m', revoked)
            && m'.inFlight == m.inFlight && m'.streams.Keys <= m.streams.Keys
  {
    if pending == [] {
      QuietBalances(m, m);
    } else {
      var init, last := pending[..|pending| - 1], pending[|pending| - 1];
      assert forall ts | ts in init :: ts in pending;
      RevocationsBooked(c, m, pool, init, env, revoked);
      var m1 := AfterRevocations(m, init, env);
      RevocationBooked(c, m1, pool, last, env, revoked);
      var (m2, rs) := HandleRevokePartitions(m1, last, env);
      BalancesTrans(m, m1, Cleaned(m2, rs), [], [], []);
    }
  }

  lemma RevocationBooked(c: Config, m: Machine, pool: seq<ToUpload>, partitions: set<TopicId>, env: Env,
                         revoked: set<TopicId>)
    requires MachineInv(c, m) && PoolOk(c, m, pool) && DroppedWithin(m, revoked) && partitions <= revoked
    ensures var (m1, rs) := HandleRevokePartitions(m, partitions, env);
            var m' := Cleaned(m1, rs);
            && MachineInv(c, m') && PoolOk(c, m', pool)
            && Balances(m, m', [], []) && DroppedWithin(m', revoked)
            && m'.inFlight == m.inFlight && m'.streams.Keys <= m.streams.Keys
  {
    var (m1, rs) := HandleRevokePartitions(m, partitions, env);
    RevokedInv(c, m, pool, partitions);
    RevokedDeletes(c, m, pool, partitions, env);
    CleanedOk(c, m1, pool, rs);
    CleanedSame(m1, rs);
    RevokedBalances(c, m, partitions);
    RevokedWithin(c, m, partitions, revoked);
    QuietBalances(m1, Cleaned(m1, rs));
    BalancesTrans(m, m1, Cleaned(m1, rs), [], [], []);
  }

  // ----- one turn

  /** The parts of a turn and what they do to the books. */
  lemma TurnAccounts(c: Config, log: set<Record>, first: map<TopicId, int>, w: World, p: Polled, env: Env)
    returns (m1: Machine, s1: Sink, request: Request, m2: Machine, rs: seq<Response>)
    requires WorldInv(c, log, first, w) && Enabled(log, w, LoopTurn(p, env)) && Booked(c, w)
    ensures (s1, request) == Select(w.sink, p)
    ensures Balances(w.sink.machine, m1, [], []) && DroppedWithin(m1, w.revoked)
    ensures m1.inFlight == w.sink.machine.inFlight && m1.streams.Keys <= w.sink.machine.streams.Keys
    ensures Accounts(c, m1, request, m2, rs)
    ensures var s' := Turn(c, w.sink, w.pending, p, env);
            !s'.phase.Stopped? ==> CarriedOut(s1.(machine := m2), rs, s')
    ensures request.ShutdownSignal? <==> rs != [] && rs[|rs| - 1].DrainAndShutdown?
  {
    s1, request := Select(w.sink, p).0, Select(w.sink, p).1;
    m1 := AfterRevocations(s1.machine, w.pending, env);
    RevocationsBooked(c, w.sink.machine, w.sink.pool, w.pending, env, w.revoked);
    m2, rs := TurnHandled(c, log, first, w, p, env, s1, request, m1);
    RequestAccounts(c, m1, request, env);
  }

  lemma TurnHandled(c: Config, log: set<Record>, first: map<TopicId, int>, w: World, p: Polled, env: Env,
                    s1: Sink, request: Request, m1: Machine)
    returns (m2: Machine, rs: seq<Response>)
    requires WorldInv(c, log, first, w) && Enabled(log, w, LoopTurn(p, env))
    requires (s1, request) == Select(w.sink, p) && m1 == AfterRevocations(s1.machine, w.pending, env)
    ensures (m2, rs) == Handle(c, m1, request, env)
    ensures var s' := Turn(c, w.sink, w.pending, p, env);
            !s'.phase.Stopped? ==> CarriedOut(s1.(machine := m2), rs, s')
    ensures request.ShutdownSignal? <==> rs != [] && rs[|rs| - 1].DrainAndShutdown?
  {
    var w1 := AfterSelect(w, p);
    SelectOk(c, log, first, w, p);
    RequestExpected(c, log, first, w, p, env);
    RequestHandled(c, log, first, w1.store, m1, s1.pool, request, env);
    m2, rs := Handle(c, m1, request, env).0, Handle(c, m1, request, env).1;
    Dispatched(log, first, w1.store, s1.(machine := m2), rs);
    OnlyShutdownDrains(c, m1, request, env);
  }

  lemma OnlyShutdownDrains(c: Config, m: Machine, request: Request, env: Env)
    ensures var rs := Handle(c, m, request, env).1;
            && (DrainAndShutdown in rs ==> request.ShutdownSignal?)
            && (request.ShutdownSignal? ==> rs != [] && rs[|rs| - 1].DrainAndShutdown?)
  {
    match request
    case ProcessRecord(r) => ProcessResponses(c, m, r, env);
    case UploadTick =>
      SealAllFrame(c, m, Due(c, m, env), env);
    case RevokePartitions(ts) => DeletionsAre(m.registry.files, RevokedStreams(m.streams, ts), env.order);
    case _ =>
  }

  // ----- every event keeps the books

  /** The upload a turn or a drain step takes out of the pool. */
  function Finished(w: World, p: Polled): seq<ToUpload>
    requires Pollable(w.sink, p)
  {
    if p.UploadDone? then [w.sink.pool[p.index]] else []
  }

  lemma FinishedSum(w: World, p: Polled, f: ToUpload -> nat)
    requires Pollable(w.sink, p)
    ensures SeqSum(w.sink.pool, f) == SeqSum(Select(w.sink, p).0.pool, f) + SeqSum(Finished(w, p), f)
    ensures |w.sink.pool| == |Select(w.sink, p).0.pool| + |Finished(w, p)|
  {
    if p.UploadDone? {
      SeqSumWithout(w.sink.pool, p.index, f);
      SeqSumOne(w.sink.pool[p.index], f);
    }
  }

  /** A finished upload either landed or is reported as failed. */
  lemma FinishedLands(w: World, p: Polled, f: ToUpload -> nat)
    requires Pollable(w.sink, p)
    ensures var landed := if p.UploadDone? then LandedAfter(w, p.index, p.ok) else w.landed;
            SeqSum(landed, f) + SeqSum(Reported(Select(w.sink, p).1), f)
            == SeqSum(w.landed, f) + SeqSum(Finished(w, p), f)
  {
    if p.UploadDone? && p.ok {
      SeqSumConcat(w.landed, [w.sink.pool[p.index]], f);
    }
  }

  /** Conservation across a turn, from its parts. */
  lemma TurnConserves(w: World, p: Polled, m1: Machine, m2: Machine, rs: seq<Response>, w': World)
    requires Conserved(w) && Pollable(w.sink, p)
    requires Balances(w.sink.machine, m1, [], [])
    requires Balances(m1, m2, Reported(Select(w.sink, p).1), Uploads(rs))
    requires w'.sink.machine.streams == m2.streams && w'.sink.machine.history == m2.history
    requires w'.sink.pool == Select(w.sink, p).0.pool + Uploads(rs)
    requires w'.landed == if p.UploadDone? then LandedAfter(w, p.index, p.ok) else w.landed
    requires w'.discarded == w.discarded
    ensures Conserved(w')
  {
    var m, m', pool := w.sink.machine, w'.sink.machine, Select(w.sink, p).0.pool;
    forall t, o
      ensures Occurrences(m'.history.consumed, t, o)
              == ActiveTimes(m', t, o) + DroppedTimes(m', t, o) + SeqSum(w'.sink.pool, InUpload(t, o))
                 + SeqSum(w'.landed, InUpload(t, o)) + SeqSum(w'.discarded, InUpload(t, o))
    {
      var f := InUpload(t, o);
      FinishedSum(w, p, f);
      FinishedLands(w, p, f);
      SeqSumConcat(pool, Uploads(rs), f);
      assert Occurrences(m1.history.consumed, t, o) + ActiveTimes(m, t, o) + DroppedTimes(m, t, o)
             == Occurrences(m.history.consumed, t, o) + ActiveTimes(m1, t, o) + DroppedTimes(m1, t, o);
    }
  }

  lemma TurnInFlight(c: Config, w: World, p: Polled, m1: Machine, request: Request, m2: Machine,
                     rs: seq<Response>, w': World)
    requires w.sink.phase.Running? && InFlightOk(c, w) && Pollable(w.sink, p)
    requires request == Select(w.sink, p).1
    requires m1.inFlight == w.sink.machine.inFlight && NoFatal(rs) && Accounts(c, m1, request, m2, rs)
    requires w'.sink.machine.inFlight == m2.inFlight && w'.sink.pool == Select(w.sink, p).0.pool + Uploads(rs)
    requires w'.sink.phase.Draining? <==> request.ShutdownSignal?
    requires w'.discarded == w.discarded
    ensures InFlightOk(c, w')
  {
    FinishedSum(w, p, Chances());
  }

  lemma TurnBooked(c: Config, log: set<Record>, first: map<TopicId, int>, w: World, p: Polled, env: Env)
    requires WorldInv(c, log, first, w) && Enabled(log, w, LoopTurn(p, env)) && Booked(c, w)
    ensures var w' := Next(c, log, w, LoopTurn(p, env));
            !w'.sink.phase.Stopped? ==> Booked(c, w')
  {
    var m1, s1, request, m2, rs := TurnAccounts(c, log, first, w, p, env);
    var w' := Next(c, log, w, LoopTurn(p, env));
    if !w'.sink.phase.Stopped? {
      CleanedSame(m2, rs);
      TurnConserves(w, p, m1, m2, rs, w');
      TurnInFlight(c, w, p, m1, request, m2, rs, w');
    }
  }

  lemma DrainConserves(w: World, i: nat, ok: bool, w': World)
    requires Conserved(w) && i < |w.sink.pool| && w'.sink.pool == Without(w.sink.pool, i)
    requires w'.sink.machine.streams == w.sink.machine.streams && w'.sink.machine.history == w.sink.machine.history
    requires w'.landed == LandedAfter(w, i, ok)
    requires w'.discarded == if ok then w.discarded else w.discarded + [w.sink.pool[i]]
    ensures Conserved(w')
  {
    var u := w.sink.pool[i];
    forall t, o
      ensures SeqSum(w'.sink.pool, InUpload(t, o)) + SeqSum(w'.landed, InUpload(t, o))
              + SeqSum(w'.discarded, InUpload(t, o))
              == SeqSum(w.sink.pool, InUpload(t, o)) + SeqSum(w.landed, InUpload(t, o))
                 + SeqSum(w.discarded, InUpload(t, o))
    {
      SeqSumWithout(w.sink.pool, i, InUpload(t, o));
      SeqSumConcat(if ok then w.landed else w.discarded, [u], InUpload(t, o));
      SeqSumOne(u, InUpload(t, o));
    }
  }

  lemma DrainBooked(c: Config, log: set<Record>, w: World, i: nat, ok: bool)
    requires Enabled(log, w, DrainUpload(i, ok)) && Booked(c, w)
    ensures var w' := Next(c, log, w, DrainUpload(i, ok));
            !w'.sink.phase.Stopped? ==> Booked(c, w')
  {
    var w' := Next(c, log, w, DrainUpload(i, ok));
    DrainConserves(w, i, ok, w');
    if !ok && w.sink.pool[i].retries == 0 {
      assert Fatal(S3Upload) in HandleUploadCompletion(w.sink.machine, Failure(w.sink.pool[i])).1;
    }
  }

  lemma RestartBooked(c: Config, w: World)
    requires w.sink.machine.streams == map[] && w.sink.machine.history == EMPTY && w.sink.machine.inFlight == 0
    requires w.sink.pool == [] && w.landed == [] && w.discarded == [] && w.pending == [] && w.sink.phase.Running?
    ensures Booked(c, w)
  {
  }

  /** Every event keeps the books, unless it stops the sink. */
  lemma StepBooked(c: Config, log: set<Record>, first: map<TopicId, int>, w: World, e: Event)
    requires WorldInv(c, log, first, w) && Enabled(log, w, e)
    requires !w.sink.phase.Stopped? ==> Booked(c, w)
    ensures var w' := Next(c, log, w, e); !w'.sink.phase.Stopped? ==> Booked(c, w')
  {
    match e
    case LoopTurn(p, env) => TurnBooked(c, log, first, w, p, env);
    case DrainUpload(i, ok) => DrainBooked(c, log, w, i, ok);
    case Crash(next) => RestartBooked(c, Next(c, log, w, e));
    case Revoke(ts) => assert Next(c, log, w, e).sink == w.sink;
    case _ =>
  }

  lemma {:induction false} ReachableBooked(c: Config, log: set<Record>, first: map<TopicId, int>,
                                           ws: seq<World>, es: seq<Event>, i: nat)
    requires IsRun(c, log, first, ws, es) && i < |ws|
    ensures WorldInv(c, log, first, ws[i])
    ensures !ws[i].sink.phase.Stopped? ==> Booked(c, ws[i])
  {
    ReachableOk(c, log, first, ws, es, i);
    if i > 0 {
      ReachableBooked(c, log, first, ws, es, i - 1);
      StepBooked(c, log, first, ws[i - 1], es[i - 1]);
    } else {
      RestartBooked(c, ws[0]);
    }
  }

  // ----- theorems

  lemma {:induction false} RecordOccurs(rs: seq<Record>, t: TopicId, offset: int)
    ensures Occurrences(rs, t, offset) > 0 ==> exists r :: r in rs && r.Tid() == t
  {
    if Occurrences(rs, t, offset) > 0 {
      RecordOccurs(rs[..|rs| - 1], t, offset);
      assert rs[|rs| - 1] in rs;
    }
  }

  lemma {:induction false} OnlyRevokedDropped(m: Machine, revoked: set<TopicId>, t: TopicId, offset: int)
    requires DroppedWithin(m, revoked) && t !in revoked
    ensures DroppedTimes(m, t, offset) == 0
  {
    forall batch | batch in m.history.dropped
      ensures InBatch(t, offset)(batch) == 0
    {
      forall id | id in batch
        ensures InRecords(t, offset)(batch[id]) == 0
      {
        RecordOccurs(batch[id], t, offset);
      }
      MapSumZero(batch, InRecords(t, offset));
    }
    SeqSumZero(m.history.dropped, InBatch(t, offset));
  }

  /** In every run until the drain, each offset is listed in the active streams, in the outstanding
      uploads and in the successful ones together as often as it was consumed, and not less often
      unless its partition was revoked: then a revocation dropped the difference. */
  lemma OffsetsConserved(c: Config, log: set<Record>, first: map<TopicId, int>, ws: seq<World>, es: seq<Event>,
                         i: nat, t: TopicId, offset: int)
    requires IsRun(c, log, first, ws, es) && i < |ws| && ws[i].sink.phase.Running?
    ensures var w := ws[i];
            && Occurrences(w.sink.machine.history.consumed, t, offset)
               == ActiveTimes(w.sink.machine, t, offset) + SeqSum(w.sink.pool, InUpload(t, offset))
                  + SeqSum(w.landed, InUpload(t, offset)) + DroppedTimes(w.sink.machine, t, offset)
            && (t !in w.revoked ==> DroppedTimes(w.sink.machine, t, offset) == 0)
  {
    ReachableBooked(c, log, first, ws, es, i);
    if t !in ws[i].revoked {
      OnlyRevokedDropped(ws[i].sink.machine, ws[i].revoked, t, offset);
    }
  }

  /** In every run the counter is exact until the drain and within the limit; during the drain it is too
      high by the number of failed uploads, so whenever an upload completes it is not zero. */
  lemma UploadsInFlight(c: Config, log: set<Record>, first: map<TopicId, int>, ws: seq<World>, es: seq<Event>, i: nat)
    requires IsRun(c, log, first, ws, es) && i < |ws|
    ensures var w := ws[i];
            && (w.sink.phase.Running? ==> w.sink.machine.inFlight == |w.sink.pool| <= c.maxConcurrentUploads)
            && (w.sink.phase.Draining? ==> w.sink.machine.inFlight == |w.sink.pool| + |w.discarded|)
            && (!w.sink.phase.Stopped? && w.sink.pool != [] ==> w.sink.machine.inFlight > 0)
  {
    ReachableBooked(c, log, first, ws, es, i);
  }
}
