/** Runs of the sink as one partition sees them: the theorems of the commit scan over every run. */
module CommitRuns {
  import opened DataModel
  import opened Config
  import opened FileRegistry
  import opened Ledger
  import opened MachineModel
  import opened MachineRuns
  import opened SinkModel
  import opened World
  import opened WorldInvariant
  import T = Track

  // ----- one event of the world

  /** What the pending revocations mean to a partition. */
  function RevokedFor(pending: seq<set<TopicId>>, t: TopicId): seq<T.Event> {
    if Unseen(pending, t) then [] else [T.Revoked]
  }

  /** A finished upload is one of the outstanding ones. */
  predicate Fits(w: World, e: Event) {
    && (e.LoopTurn? ==> Pollable(w.sink, e.polled))
    && (e.DrainUpload? ==> e.index < |w.sink.pool|)
  }

  function PendingAt(w: World, e: Event): seq<set<TopicId>> {
    if e.LoopTurn? then w.pending else []
  }

  /** What the request of an event means to a partition: at most one event. */
  function MeaningOf(c: Config, w: World, e: Event, t: TopicId): (es: seq<T.Event>)
    requires Fits(w, e)
    ensures |es| <= 1
  {
    match e
    case LoopTurn(p, _) => EventOf(c, Select(w.sink, p).1, t)
    case DrainUpload(i, ok) => EventOf(c, UploadCompletion(Outcome(w.sink.pool[i], ok)), t)
    case FinalTurn(a) => EventOf(c, FinalCommit(a), t)
    case _ => []
  }

  /** What an event of the world means to a partition: the revocations handled first, then the request. */
  function EventsOf(c: Config, w: World, e: Event, t: TopicId): seq<T.Event>
    requires Fits(w, e)
  {
    RevokedFor(PendingAt(w, e), t) + MeaningOf(c, w, e, t)
  }

  /** What some commit lists handed to the consumer hold for a partition. */
  function SentFor(sent: seq<CommitList>, t: TopicId): seq<int> {
    if sent == [] then [] else SentFor(sent[..|sent| - 1], t) + ValueFor(sent[|sent| - 1], t)
  }

  lemma SentMore(sent: seq<CommitList>, tpl: CommitList, t: TopicId)
    ensures SentFor(if |tpl| > 0 then sent + [tpl] else sent, t) == SentFor(sent, t) + ValueFor(tpl, t)
  {
    if |tpl| > 0 {
      assert (sent + [tpl])[..|sent|] == sent;
    } else {
      assert t !in tpl;
      assert SentFor(sent, t) + [] == SentFor(sent, t);
    }
  }

  lemma RespondSends(s: Sink, r: Response, t: TopicId)
    ensures var s' := Respond(s, r);
            && SentFor(s'.sent, t) == SentFor(s.sent, t) + CommittedFor([r], t)
            && Proj(s'.machine, t) == Proj(s.machine, t)
  {
    OneCommit(r, t);
    SentMore(s.sent, CommitOf(r), t);
  }

  /** No response is left out: either no response commits, or there is only one response. */
  predicate CommitsAlone(rs: seq<Response>) {
    |rs| == 1 || forall r | r in rs :: !r.CommitAsync? && !r.CommitSync?
  }

  lemma {:induction false} DispatchSends(s: Sink, rs: seq<Response>, t: TopicId)
    requires s.phase.Running? && CommitsAlone(rs)
    ensures var s' := Dispatch(s, rs);
            && SentFor(s'.sent, t) == SentFor(s.sent, t) + CommittedFor(rs, t)
            && Proj(s'.machine, t) == Proj(s.machine, t)
  {
    if |rs| == 1 {
      assert rs[..0] == [] && rs == [rs[0]];
      assert Dispatch(s, rs[..0]) == s;
      RespondSends(s, rs[0], t);
    } else {
      DispatchSilent(s, rs, t);
      NoCommits(rs, t);
    }
  }

  lemma {:induction false} DispatchSilent(s: Sink, rs: seq<Response>, t: TopicId)
    requires forall r | r in rs :: !r.CommitAsync? && !r.CommitSync?
    ensures var s' := Dispatch(s, rs); s'.sent == s.sent && Proj(s'.machine, t) == Proj(s.machine, t)
  {
    if rs != [] {
      assert rs[|rs| - 1] in rs && forall r | r in rs[..|rs| - 1] :: r in rs;
      DispatchSilent(s, rs[..|rs| - 1], t);
    }
  }

  lemma HandleAlone(c: Config, m: Machine, request: Request, env: Env)
    requires !request.RevokePartitions?
    ensures CommitsAlone(Handle(c, m, request, env).1)
  {
    match request
    case ProcessRecord(r) => ProcessSilent(c, m, r, env);
    case UploadTick => SealAllFrame(c, m, Due(c, m, env), env);
    case ShutdownSignal => SealAllFrame(c, m, env.order, env);
    case _ =>
  }

  /** The pending revocations act on a partition's track as what they mean to it. */
  lemma {:induction false} RevocationsProject(m: Machine, pending: seq<set<TopicId>>, env: Env, t: TopicId)
    ensures Proj(AfterRevocations(m, pending, env), t) == if Unseen(pending, t) then Proj(m, t) else T.FRESH
  {
    if pending != [] {
      var init, last := pending[..|pending| - 1], pending[|pending| - 1];
      assert pending == init + [last];
      RevocationsProject(m, init, env, t);
      var (m2, rs) := HandleRevokePartitions(AfterRevocations(m, init, env), last, env);
      CleanedSame(m2, rs);
    }
  }

  lemma RevokedForRuns(tr: T.Track, pending: seq<set<TopicId>>, t: TopicId)
    ensures T.Run(tr, RevokedFor(pending, t)) == if Unseen(pending, t) then tr else T.FRESH
    ensures T.Commits(tr, RevokedFor(pending, t)) == []
  {
    RunOne(tr, T.Revoked);
  }

  /** Between two worlds a partition's track and the commits handed to the consumer go on by some events. */
  ghost predicate GoesOn(w: World, w': World, es: seq<T.Event>, t: TopicId) {
    && Proj(w'.sink.machine, t) == T.Run(Proj(w.sink.machine, t), es)
    && SentFor(w'.sink.sent, t) == SentFor(w.sink.sent, t) + T.Commits(Proj(w.sink.machine, t), es)
  }

  /** Revocations followed by a request. */
  lemma Together(tr: T.Track, tr1: T.Track, before: seq<int>, revoked: seq<T.Event>, es: seq<T.Event>)
    requires tr1 == T.Run(tr, revoked) && T.Commits(tr, revoked) == []
    ensures T.Run(tr, revoked + es) == T.Run(tr1, es)
    ensures before + T.Commits(tr, revoked + es) == before + T.Commits(tr1, es)
  {
    T.RunConcat(tr, revoked, es);
    assert [] + T.Commits(tr1, es) == T.Commits(tr1, es);
  }

  lemma TurnGoesOn(c: Config, log: set<Record>, w: World, p: Polled, env: Env, t: TopicId)
    requires Enabled(log, w, LoopTurn(p, env))
    ensures GoesOn(w, Next(c, log, w, LoopTurn(p, env)), EventsOf(c, w, LoopTurn(p, env), t), t)
  {
    var m1, m2, rs := TurnTracks(c, w.sink, w.pending, p, env, t);
    Together(Proj(w.sink.machine, t), Proj(m1, t), SentFor(w.sink.sent, t), RevokedFor(w.pending, t),
             EventOf(c, Select(w.sink, p).1, t));
  }

  lemma TurnTracks(c: Config, s: Sink, pending: seq<set<TopicId>>, p: Polled, env: Env, t: TopicId)
    returns (m1: Machine, m2: Machine, rs: seq<Response>)
    requires s.phase.Running? && Pollable(s, p)
    ensures Proj(m1, t) == T.Run(Proj(s.machine, t), RevokedFor(pending, t))
    ensures T.Commits(Proj(s.machine, t), RevokedFor(pending, t)) == []
    ensures var es, s' := EventOf(c, Select(s, p).1, t), Turn(c, s, pending, p, env);
            && Proj(s'.machine, t) == T.Run(Proj(m1, t), es)
            && SentFor(s'.sent, t) == SentFor(s.sent, t) + T.Commits(Proj(m1, t), es)
  {
    var s1, request := Select(s, p).0, Select(s, p).1;
    m1 := AfterRevocations(s1.machine, pending, env);
    RevocationsProject(s.machine, pending, env, t);
    RevokedForRuns(Proj(s.machine, t), pending, t);
    m2, rs := Handle(c, m1, request, env).0, Handle(c, m1, request, env).1;
    Projects(c, m1, request, env, t);
    HandleAlone(c, m1, request, env);
    DispatchSends(s1.(machine := m2), rs, t);
  }

  lemma DrainTracks(c: Config, s: Sink, i: nat, ok: bool, t: TopicId)
    requires i < |s.pool|
    ensures var es, s' := EventOf(c, UploadCompletion(Outcome(s.pool[i], ok)), t), DrainStep(s, i, ok);
            && Proj(s'.machine, t) == T.Run(Proj(s.machine, t), es)
            && T.Commits(Proj(s.machine, t), es) == [] && s'.sent == s.sent
  {
    var request := UploadCompletion(Outcome(s.pool[i], ok));
    Projects(c, s.machine, request, Env(0, [], NoFault, {}), t);
    NoCommits(HandleUploadCompletion(s.machine, request.result).1, t);
  }

  lemma DrainGoesOn(c: Config, log: set<Record>, w: World, i: nat, ok: bool, t: TopicId)
    requires Enabled(log, w, DrainUpload(i, ok))
    ensures GoesOn(w, Next(c, log, w, DrainUpload(i, ok)), EventsOf(c, w, DrainUpload(i, ok), t), t)
  {
    DrainTracks(c, w.sink, i, ok, t);
    var es := EventOf(c, UploadCompletion(Outcome(w.sink.pool[i], ok)), t);
    assert [] + es == es;
    assert SentFor(w.sink.sent, t) + [] == SentFor(w.sink.sent, t);
  }

  lemma FinalTracks(c: Config, s: Sink, a: set<TopicId>, t: TopicId)
    ensures var es, s' := EventOf(c, FinalCommit(a), t), LastCommit(s, a);
            && Proj(s'.machine, t) == T.Run(Proj(s.machine, t), es)
            && SentFor(s'.sent, t) == SentFor(s.sent, t) + T.Commits(Proj(s.machine, t), es)
  {
    var tpl := CommitListOf(s.machine, a);
    Projects(c, s.machine, FinalCommit(a), Env(0, [], NoFault, {}), t);
    OneCommit(CommitSync(tpl), t);
    SentMore(s.sent, tpl, t);
  }

  lemma FinalGoesOn(c: Config, log: set<Record>, w: World, a: set<TopicId>, t: TopicId)
    requires Enabled(log, w, FinalTurn(a))
    ensures GoesOn(w, Next(c, log, w, FinalTurn(a)), EventsOf(c, w, FinalTurn(a), t), t)
  {
    FinalTracks(c, w.sink, a, t);
    var es := EventOf(c, FinalCommit(a), t);
    assert [] + es == es;
  }

  /** Every event but a crash acts on a partition's track, and on its commits, as the events it means to it. */
  lemma StepGoesOn(c: Config, log: set<Record>, w: World, e: Event, t: TopicId)
    requires Enabled(log, w, e) && !e.Crash?
    ensures GoesOn(w, Next(c, log, w, e), EventsOf(c, w, e, t), t)
  {
    match e
    case LoopTurn(p, env) => TurnGoesOn(c, log, w, p, env, t);
    case DrainUpload(i, ok) => DrainGoesOn(c, log, w, i, ok, t);
    case FinalTurn(a) => FinalGoesOn(c, log, w, a, t);
    case Crash(_) =>
    case _ => StaysPut(w, t);
  }

  // ----- stretches of runs

  /** A stretch of a run within the life of one program. */
  ghost predicate Stretch(c: Config, log: set<Record>, first: map<TopicId, int>, ws: seq<World>, es: seq<Event>,
                          i: nat, j: nat) {
    IsRun(c, log, first, ws, es) && i <= j <= |es| && forall k | i <= k < j :: !es[k].Crash?
  }

  predicate AllFit(ws: seq<World>, es: seq<Event>, i: nat, j: nat) {
    i <= j <= |es| < |ws| && forall k | i <= k < j :: Fits(ws[k], es[k])
  }

  /** A stretch as one partition sees it. */
  function Trace(c: Config, ws: seq<World>, es: seq<Event>, i: nat, j: nat, t: TopicId): seq<T.Event>
    requires AllFit(ws, es, i, j)
    decreases j - i
  {
    if i == j then [] else Trace(c, ws, es, i, j - 1, t) + EventsOf(c, ws[j - 1], es[j - 1], t)
  }

  lemma Assoc<X>(a: seq<X>, b: seq<X>, d: seq<X>)
    ensures a + b + d == a + (b + d)
  {
  }

  lemma GoesOnTrans(w: World, w1: World, w2: World, es1: seq<T.Event>, es2: seq<T.Event>, t: TopicId)
    requires GoesOn(w, w1, es1, t) && GoesOn(w1, w2, es2, t)
    ensures GoesOn(w, w2, es1 + es2, t)
  {
    var tr := Proj(w.sink.machine, t);
    T.RunConcat(tr, es1, es2);
    Assoc(SentFor(w.sink.sent, t), T.Commits(tr, es1), T.Commits(T.Run(tr, es1), es2));
  }

  lemma StaysPut(w: World, t: TopicId)
    ensures GoesOn(w, w, [], t)
  {
    assert SentFor(w.sink.sent, t) + [] == SentFor(w.sink.sent, t);
  }

  ghost predicate GoesAt(c: Config, ws: seq<World>, es: seq<Event>, k: nat, t: TopicId)
    requires k < |es| < |ws|
  {
    Fits(ws[k], es[k]) && GoesOn(ws[k], ws[k + 1], EventsOf(c, ws[k], es[k], t), t)
  }

  /** One more event of a trace. */
  lemma TraceStep(c: Config, ws: seq<World>, es: seq<Event>, i: nat, k: nat, t: TopicId)
    requires i <= k < |es| < |ws| && AllFit(ws, es, i, k) && GoesAt(c, ws, es, k, t)
    requires GoesOn(ws[i], ws[k], Trace(c, ws, es, i, k, t), t)
    ensures AllFit(ws, es, i, k + 1) && GoesOn(ws[i], ws[k + 1], Trace(c, ws, es, i, k + 1, t), t)
  {
    GoesOnTrans(ws[i], ws[k], ws[k + 1], Trace(c, ws, es, i, k, t), EventsOf(c, ws[k], es[k], t), t);
  }

  lemma {:induction false} TraceGoesOn(c: Config, ws: seq<World>, es: seq<Event>, i: nat, j: nat, t: TopicId)
    requires i <= j <= |es| < |ws| && forall k | i <= k < j :: GoesAt(c, ws, es, k, t)
    ensures AllFit(ws, es, i, j) && GoesOn(ws[i], ws[j], Trace(c, ws, es, i, j, t), t)
    decreases j - i
  {
    if i == j {
      StaysPut(ws[i], t);
    } else {
      var k := j - 1;
      TraceGoesOn(c, ws, es, i, k, t);
      TraceStep(c, ws, es, i, k, t);
    }
  }

  /** A stretch of a run is, partition by partition, a run of tracks, and hands to the consumer what they commit. */
  lemma WholeRunProjects(c: Config, log: set<Record>, first: map<TopicId, int>, ws: seq<World>, es: seq<Event>,
                         i: nat, j: nat, t: TopicId)
    requires Stretch(c, log, first, ws, es, i, j)
    ensures AllFit(ws, es, i, j)
    ensures GoesOn(ws[i], ws[j], Trace(c, ws, es, i, j, t), t)
  {
    forall k | i <= k < j
      ensures GoesAt(c, ws, es, k, t)
    {
      StretchStep(c, log, first, ws, es, i, j, k, t);
    }
    TraceGoesOn(c, ws, es, i, j, t);
  }

  lemma StretchStep(c: Config, log: set<Record>, first: map<TopicId, int>, ws: seq<World>, es: seq<Event>,
                    i: nat, j: nat, k: nat, t: TopicId)
    requires Stretch(c, log, first, ws, es, i, j) && i <= k < j
    ensures Fits(ws[k], es[k]) && GoesOn(ws[k], ws[k + 1], EventsOf(c, ws[k], es[k], t), t)
  {
    StepGoesOn(c, log, ws[k], es[k], t);
  }

  // ----- what the events of a stretch mean

  /** The turn handles a revocation of the partition. */
  predicate Revokes(w: World, e: Event, t: TopicId) {
    e.LoopTurn? && !Unseen(w.pending, t)
  }

  /** No pending revocation of the partition is handled. */
  predicate Unrevoked(ws: seq<World>, es: seq<Event>, i: nat, j: nat, t: TopicId)
    requires j <= |es| < |ws|
  {
    forall k | i <= k < j :: !Revokes(ws[k], es[k], t)
  }

  predicate Unassigns(e: Event, t: TopicId) {
    match e
    case LoopTurn(CommitTimer(a), _) => t !in a
    case FinalTurn(a) => t !in a
    case _ => false
  }

  predicate Commits(e: Event, t: TopicId) {
    match e
    case LoopTurn(CommitTimer(a), _) => t in a
    case FinalTurn(a) => t in a
    case _ => false
  }

  predicate Brings(e: Event, t: TopicId) {
    e.LoopTurn? && e.polled.Received? && e.polled.record.Tid() == t
  }

  /** No record of the partition is delivered. */
  predicate Undelivered(es: seq<Event>, i: nat, j: nat, t: TopicId)
    requires j <= |es|
  {
    forall k | i <= k < j :: !Brings(es[k], t)
  }

  /** The offsets of the partition that an upload lists if it succeeds. */
  function Lands(w: World, e: Event, t: TopicId): set<int>
    requires Fits(w, e)
  {
    match e
    case LoopTurn(UploadDone(i, true), _) => AsSet(Listed(w.sink.pool[i].file.offsetsConsumed, t))
    case DrainUpload(i, true) => AsSet(Listed(w.sink.pool[i].file.offsetsConsumed, t))
    case _ => {}
  }

  function Delivery(c: Config, e: Event, t: TopicId): Option<int> {
    if Brings(e, t) && c.route(e.polled.record).Some? then Some(e.polled.record.offset) else None
  }

  /** What a request means to a partition: what it brings and what has landed. */
  lemma MeaningMeans(c: Config, w: World, e: Event, t: TopicId)
    requires Fits(w, e)
    ensures var es := MeaningOf(c, w, e, t);
            && Delivery(c, e, t) == (if es != [] && es[0].Consumed? then Some(es[0].offset) else None)
            && Lands(w, e, t) == (if es != [] && es[0].Uploaded? then es[0].offsets else {})
            && (es != [] ==> es[0] != T.Revoked && (es[0] == T.Tick(false) <==> Unassigns(e, t)))
            && (es == [] ==> !Unassigns(e, t) && !Commits(e, t))
            && (Commits(e, t) ==> es == [T.Tick(true)])
            && (Unassigns(e, t) ==> es == [T.Tick(false)])
  {
    assert AsSet([]) == {};
  }

  lemma UnrevokedConcat(a: seq<T.Event>, b: seq<T.Event>)
    requires T.Unrevoked(a) && T.Unrevoked(b)
    ensures T.Unrevoked(a + b)
  {
  }

  lemma UnconsumedConcat(a: seq<T.Event>, b: seq<T.Event>)
    requires NotConsumed(a) && NotConsumed(b)
    ensures NotConsumed(a + b)
  {
  }

  /** What an event of the world does not mean to a partition. */
  lemma PartClean(c: Config, w: World, e: Event, t: TopicId)
    requires Fits(w, e)
    ensures var part := EventsOf(c, w, e, t);
            && (!Revokes(w, e, t) ==> T.Unrevoked(part))
            && (!Brings(e, t) ==> NotConsumed(part))
  {
    MeaningMeans(c, w, e, t);
  }

  lemma {:induction false} TraceUnrevoked(c: Config, ws: seq<World>, es: seq<Event>, i: nat, j: nat, t: TopicId)
    requires AllFit(ws, es, i, j) && Unrevoked(ws, es, i, j, t)
    ensures T.Unrevoked(Trace(c, ws, es, i, j, t))
    decreases j - i
  {
    if i < j {
      var k := j - 1;
      assert !Revokes(ws[k], es[k], t);
      TraceUnrevoked(c, ws, es, i, k, t);
      PartClean(c, ws[k], es[k], t);
      UnrevokedConcat(Trace(c, ws, es, i, k, t), EventsOf(c, ws[k], es[k], t));
    }
  }

  lemma {:induction false} TraceUnconsumed(c: Config, ws: seq<World>, es: seq<Event>, i: nat, j: nat, t: TopicId)
    requires AllFit(ws, es, i, j) && Undelivered(es, i, j, t)
    ensures NotConsumed(Trace(c, ws, es, i, j, t))
    decreases j - i
  {
    if i < j {
      var k := j - 1;
      assert !Brings(es[k], t);
      TraceUnconsumed(c, ws, es, i, k, t);
      PartClean(c, ws[k], es[k], t);
      UnconsumedConcat(Trace(c, ws, es, i, k, t), EventsOf(c, ws[k], es[k], t));
    }
  }

  /** No record of the partition is processed. */
  predicate NotConsumed(es: seq<T.Event>) {
    forall i | 0 <= i < |es| :: !es[i].Consumed?
  }

  // ----- since the last reset

  /** The turn handles a revocation of the partition, or commits without finding it assigned: what is kept of
      its uploaded offsets is given up. */
  predicate ResetsAt(ws: seq<World>, es: seq<Event>, k: nat, t: TopicId)
    requires k < |es| < |ws|
  {
    Revokes(ws[k], es[k], t) || Unassigns(es[k], t)
  }

  /** No event of the stretch after r resets the partition, and r does, or else it is the first. */
  predicate LastReset(ws: seq<World>, es: seq<Event>, i: nat, j: nat, r: nat, t: TopicId)
    requires i < j <= |es| < |ws|
  {
    && i <= r < j && (r > i ==> ResetsAt(ws, es, r, t))
    && forall k | r < k < j :: !ResetsAt(ws, es, k, t)
  }

  lemma {:induction false} FindReset(ws: seq<World>, es: seq<Event>, i: nat, j: nat, t: TopicId) returns (r: nat)
    requires i < j <= |es| < |ws|
    ensures LastReset(ws, es, i, j, r, t)
    decreases j - i
  {
    if j == i + 1 || ResetsAt(ws, es, j - 1, t) {
      r := j - 1;
    } else {
      r := FindReset(ws, es, i, j - 1, t);
    }
  }

  function OrElse(a: Option<int>, b: Option<int>): Option<int> {
    if a.Some? then a else b
  }

  /** The first offset of the partition delivered in a stretch. */
  function FirstDelivered(c: Config, es: seq<Event>, r: nat, j: nat, t: TopicId): Option<int>
    requires r <= j <= |es|
    decreases j - r
  {
    if r == j then None else OrElse(FirstDelivered(c, es, r, j - 1, t), Delivery(c, es[j - 1], t))
  }

  /** The offsets of the partition that successful uploads of a stretch list. */
  function LandedSince(ws: seq<World>, es: seq<Event>, r: nat, j: nat, t: TopicId): set<int>
    requires AllFit(ws, es, r, j)
    decreases j - r
  {
    if r == j then {} else LandedSince(ws, es, r, j - 1, t) + Lands(ws[j - 1], es[j - 1], t)
  }

  /** The offset a partition is committed from: the first one delivered since the reset, unless the reset was a
      commit that left it its watermark. */
  function StartOf(c: Config, ws: seq<World>, es: seq<Event>, r: nat, j: nat, t: TopicId): Option<int>
    requires r <= j <= |es| < |ws|
  {
    if r < j && Unassigns(es[r], t) && t in ws[r + 1].sink.machine.watermark then
      Some(ws[r + 1].sink.machine.watermark[t])
    else FirstDelivered(c, es, r, j, t)
  }

  /** An event acts on what is tracked, or on a fresh track if it handles a revocation, as its request means. */
  lemma StepTracks(c: Config, log: set<Record>, w: World, e: Event, t: TopicId)
    requires Enabled(log, w, e) && !e.Crash?
    ensures Proj(Next(c, log, w, e).sink.machine, t)
            == T.Run(if Revokes(w, e, t) then T.FRESH else Proj(w.sink.machine, t), MeaningOf(c, w, e, t))
  {
    StepGoesOn(c, log, w, e, t);
    RunsAsMeant(Proj(w.sink.machine, t), PendingAt(w, e), MeaningOf(c, w, e, t), t);
  }

  lemma RunsAsMeant(tr: T.Track, pending: seq<set<TopicId>>, es: seq<T.Event>, t: TopicId)
    ensures T.Run(tr, RevokedFor(pending, t) + es) == T.Run(if Unseen(pending, t) then tr else T.FRESH, es)
  {
    T.RunConcat(tr, RevokedFor(pending, t), es);
    RevokedForRuns(tr, pending, t);
  }

  /** What a request makes of a track that stands for something. */
  lemma MeaningStands(c: Config, w: World, e: Event, t: TopicId, tr: T.Track, first: Option<int>, full: set<int>)
    requires Fits(w, e) && T.StandsFor(tr, first, full)
    ensures var tr' := T.Run(tr, MeaningOf(c, w, e, t));
            if Unassigns(e, t) then tr'.up == {} && tr'.wm == tr.wm
            else
              && T.StandsFor(tr', OrElse(first, Delivery(c, e, t)), full + Lands(w, e, t))
              && (Commits(e, t) ==> tr' == T.Simple(first, full))
  {
    MeaningMeans(c, w, e, t);
    var es := MeaningOf(c, w, e, t);
    if es != [] {
      assert es == [es[0]];
      RunOne(tr, es[0]);
    }
    if !Unassigns(e, t) {
      T.StandsAfter(tr, first, full, es);
    }
    if Commits(e, t) {
      T.TickFinds(tr, first, full);
    }
  }

  /** What is tracked stands for what was delivered and what has landed since an event. */
  ghost predicate StandsAt(c: Config, ws: seq<World>, es: seq<Event>, r: nat, k: nat, t: TopicId)
    requires r <= k <= |es| < |ws|
  {
    && AllFit(ws, es, r, k)
    && T.StandsFor(Proj(ws[k].sink.machine, t), StartOf(c, ws, es, r, k, t), LandedSince(ws, es, r, k, t))
  }

  /** An event takes what a track stands for on by what it delivers and lands, and a commit makes it simple. */
  ghost predicate Carries(c: Config, w: World, e: Event, w': World, t: TopicId)
    requires Fits(w, e)
  {
    && (forall first, full | T.StandsFor(Proj(w.sink.machine, t), first, full) ::
          T.StandsFor(Proj(w'.sink.machine, t), OrElse(first, Delivery(c, e, t)), full + Lands(w, e, t)))
    && (Commits(e, t) ==>
          && Delivery(c, e, t) == None && Lands(w, e, t) == {}
          && forall first, full | T.StandsFor(Proj(w.sink.machine, t), first, full) ::
               Proj(w'.sink.machine, t) == T.Simple(first, full))
  }

  lemma StandsNext(c: Config, ws: seq<World>, es: seq<Event>, r: nat, k: nat, t: TopicId)
    requires r < k < |es| < |ws| && Fits(ws[k], es[k]) && Carries(c, ws[k], es[k], ws[k + 1], t)
    requires StandsAt(c, ws, es, r, k, t)
    ensures StandsAt(c, ws, es, r, k + 1, t)
    ensures Commits(es[k], t) ==> IsSimple(c, ws, es, r, k + 1, t)
  {
    var first, full := StartOf(c, ws, es, r, k, t), LandedSince(ws, es, r, k, t);
    StartNext(c, ws, es, r, k, t);
    Extended(c, ws, es, r, k, t);
    assert T.StandsFor(Proj(ws[k].sink.machine, t), first, full);
    assert Commits(es[k], t) ==> OrElse(first, None) == first && full + {} == full;
  }

  lemma StandsStep(c: Config, log: set<Record>, w: World, e: Event, t: TopicId)
    requires Enabled(log, w, e) && !e.Crash? && !Revokes(w, e, t) && !Unassigns(e, t)
    ensures Carries(c, w, e, Next(c, log, w, e), t)
  {
    StepTracks(c, log, w, e, t);
    var tr, tr' := Proj(w.sink.machine, t), T.Run(Proj(w.sink.machine, t), MeaningOf(c, w, e, t));
    forall first, full | T.StandsFor(tr, first, full)
      ensures T.StandsFor(tr', OrElse(first, Delivery(c, e, t)), full + Lands(w, e, t))
      ensures Commits(e, t) ==> tr' == T.Simple(first, full)
    {
      MeaningStands(c, w, e, t, tr, first, full);
    }
  }

  lemma Extended(c: Config, ws: seq<World>, es: seq<Event>, r: nat, k: nat, t: TopicId)
    requires r < k < |es| < |ws| && AllFit(ws, es, r, k) && Fits(ws[k], es[k])
    ensures AllFit(ws, es, r, k + 1)
    ensures LandedSince(ws, es, r, k + 1, t) == LandedSince(ws, es, r, k, t) + Lands(ws[k], es[k], t)
  {
  }

  /** What is tracked is given by the simple definition. */
  ghost predicate IsSimple(c: Config, ws: seq<World>, es: seq<Event>, r: nat, k: nat, t: TopicId)
    requires r <= k <= |es| < |ws|
  {
    && AllFit(ws, es, r, k)
    && Proj(ws[k].sink.machine, t) == T.Simple(StartOf(c, ws, es, r, k, t), LandedSince(ws, es, r, k, t))
  }

  lemma StartNext(c: Config, ws: seq<World>, es: seq<Event>, r: nat, k: nat, t: TopicId)
    requires r < k < |es| < |ws|
    ensures StartOf(c, ws, es, r, k + 1, t) == OrElse(StartOf(c, ws, es, r, k, t), Delivery(c, es[k], t))
  {
  }

  lemma CommitLands(c: Config, w: World, e: Event, t: TopicId)
    requires Fits(w, e) && Commits(e, t)
    ensures Delivery(c, e, t) == None && Lands(w, e, t) == {}
  {
  }

  /** The first event: a reset, or any event if nothing is tracked. */
  lemma StandsFirst(c: Config, log: set<Record>, ws: seq<World>, es: seq<Event>, r: nat, t: TopicId)
    requires r < |es| < |ws| && Enabled(log, ws[r], es[r]) && !es[r].Crash? && ws[r + 1] == Next(c, log, ws[r], es[r])
    requires ResetsAt(ws, es, r, t) || Proj(ws[r].sink.machine, t) == T.FRESH
    ensures StandsAt(c, ws, es, r, r + 1, t)
    ensures Commits(es[r], t) ==> IsSimple(c, ws, es, r, r + 1, t)
  {
    FirstOnly(c, ws, es, r, t);
    StepTracks(c, log, ws[r], es[r], t);
    if Unassigns(es[r], t) {
      UnassignedStands(c, ws[r], es[r], t, if Revokes(ws[r], es[r], t) then T.FRESH else Proj(ws[r].sink.machine, t));
    } else {
      MeaningStands(c, ws[r], es[r], t, T.FRESH, None, {});
      if Commits(es[r], t) {
        CommitLands(c, ws[r], es[r], t);
      }
    }
  }

  lemma UnassignedStands(c: Config, w: World, e: Event, t: TopicId, tr: T.Track)
    requires Fits(w, e) && Unassigns(e, t)
    ensures var tr' := T.Run(tr, MeaningOf(c, w, e, t));
            T.StandsFor(tr', tr'.wm, {}) && Delivery(c, e, t) == None && Lands(w, e, t) == {}
  {
    MeaningMeans(c, w, e, t);
    RunOne(tr, T.Tick(false));
  }

  lemma FirstOnly(c: Config, ws: seq<World>, es: seq<Event>, r: nat, t: TopicId)
    requires r < |es| < |ws| && Fits(ws[r], es[r])
    ensures AllFit(ws, es, r, r + 1)
    ensures LandedSince(ws, es, r, r + 1, t) == Lands(ws[r], es[r], t)
    ensures FirstDelivered(c, es, r, r + 1, t) == Delivery(c, es[r], t)
  {
    assert LandedSince(ws, es, r, r, t) == {};
    assert FirstDelivered(c, es, r, r, t) == None;
  }

  /** One step of a run keeps what stands. */
  ghost predicate Continues(c: Config, ws: seq<World>, es: seq<Event>, r: nat, k: nat, t: TopicId)
    requires r <= k < |es| < |ws|
  {
    StandsAt(c, ws, es, r, k, t) ==> StandsAt(c, ws, es, r, k + 1, t)
  }

  lemma {:induction false} StandsUpTo(c: Config, ws: seq<World>, es: seq<Event>, r: nat, j: nat, t: TopicId)
    requires r < j <= |es| < |ws| && StandsAt(c, ws, es, r, r + 1, t)
    requires forall k | r < k < j :: Continues(c, ws, es, r, k, t)
    ensures StandsAt(c, ws, es, r, j, t)
    decreases j
  {
    if r + 1 < j {
      var k := j - 1;
      StandsUpTo(c, ws, es, r, k, t);
      assert Continues(c, ws, es, r, k, t);
    }
  }

  lemma StretchAt(c: Config, log: set<Record>, first: map<TopicId, int>, ws: seq<World>, es: seq<Event>,
                  i: nat, j: nat, k: nat)
    requires Stretch(c, log, first, ws, es, i, j) && i <= k < j
    ensures Enabled(log, ws[k], es[k]) && !es[k].Crash? && ws[k + 1] == Next(c, log, ws[k], es[k])
  {
  }

  /** In any run, since its last reset. */
  lemma StandsSinceReset(c: Config, log: set<Record>, first: map<TopicId, int>, ws: seq<World>, es: seq<Event>,
                         i: nat, j: nat, r: nat, t: TopicId)
    requires Stretch(c, log, first, ws, es, i, j) && i < j
    requires Untracked(ws[i].sink.machine, t) && LastReset(ws, es, i, j, r, t)
    ensures StandsAt(c, ws, es, r, j, t)
  {
    StretchAt(c, log, first, ws, es, i, j, r);
    StandsFirst(c, log, ws, es, r, t);
    forall k | r < k < j
      ensures Continues(c, ws, es, r, k, t)
    {
      StretchAt(c, log, first, ws, es, i, j, k);
      assert !ResetsAt(ws, es, k, t);
      StandsStep(c, log, ws[k], es[k], t);
      if StandsAt(c, ws, es, r, k, t) {
        StandsNext(c, ws, es, r, k, t);
      }
    }
    StandsUpTo(c, ws, es, r, j, t);
  }

  // ----- theorems

  /** Nothing is tracked for the partition: the program has just started, or the partition was just revoked. */
  predicate Untracked(m: Machine, t: TopicId) {
    t !in m.watermark && UploadedOf(m.uploaded, t) == {}
  }

  lemma StartsUntracked(m: Machine, registry: Registry, partitions: set<TopicId>, t: TopicId)
    ensures Untracked(New(registry), t)
    ensures t in partitions ==> Untracked(Revoked(m, partitions), t)
  {
  }

  lemma CommitAt(c: Config, log: set<Record>, first: map<TopicId, int>, ws: seq<World>, es: seq<Event>,
                 i: nat, k: nat, r: nat, t: TopicId)
    requires Stretch(c, log, first, ws, es, i, k + 1) && i <= r < k && Commits(es[k], t)
    requires Untracked(ws[i].sink.machine, t) && LastReset(ws, es, i, k, r, t) && !ResetsAt(ws, es, k, t)
    ensures IsSimple(c, ws, es, r, k + 1, t)
  {
    StretchAt(c, log, first, ws, es, i, k + 1, k);
    Shorter(c, log, first, ws, es, i, k);
    StandsSinceReset(c, log, first, ws, es, i, k, r, t);
    StandsStep(c, log, ws[k], es[k], t);
    StandsNext(c, ws, es, r, k, t);
  }

  lemma Shorter(c: Config, log: set<Record>, first: map<TopicId, int>, ws: seq<World>, es: seq<Event>, i: nat, k: nat)
    requires Stretch(c, log, first, ws, es, i, k + 1) && i <= k
    ensures Stretch(c, log, first, ws, es, i, k)
  {
  }

  /** The incremental scan, over sets it keeps collecting, computes the simple definition. In any run, after a
      commit that finds the partition assigned, its watermark is the least offset that has not landed since the
      last reset, from the first one delivered since then; and exactly the landed offsets above it are kept. */
  lemma IncrementalCommit(c: Config, log: set<Record>, first: map<TopicId, int>, ws: seq<World>, es: seq<Event>,
                          i: nat, j: nat, r: nat, t: TopicId)
    requires Stretch(c, log, first, ws, es, i, j) && i < j && Commits(es[j - 1], t)
    requires Untracked(ws[i].sink.machine, t) && LastReset(ws, es, i, j, r, t)
    ensures IsSimple(c, ws, es, r, j, t)
  {
    var k := j - 1;
    if r == k {
      StretchAt(c, log, first, ws, es, i, j, k);
      StandsFirst(c, log, ws, es, r, t);
    } else {
      CommitAt(c, log, first, ws, es, i, k, r, t);
    }
  }

  /** Two runs in which a partition is committed from the same offset and the same offsets of it have landed since
      the last reset leave the same watermark and the same uncollected offsets, whatever the order of the
      completions and however the commit ticks fall between them. */
  lemma CompletionOrderIrrelevant(c: Config, log: set<Record>, first: map<TopicId, int>,
                                  ws1: seq<World>, es1: seq<Event>, i1: nat, j1: nat, r1: nat,
                                  ws2: seq<World>, es2: seq<Event>, i2: nat, j2: nat, r2: nat, t: TopicId)
    requires Stretch(c, log, first, ws1, es1, i1, j1) && i1 < j1 && Commits(es1[j1 - 1], t)
    requires Untracked(ws1[i1].sink.machine, t) && LastReset(ws1, es1, i1, j1, r1, t) && AllFit(ws1, es1, r1, j1)
    requires Stretch(c, log, first, ws2, es2, i2, j2) && i2 < j2 && Commits(es2[j2 - 1], t)
    requires Untracked(ws2[i2].sink.machine, t) && LastReset(ws2, es2, i2, j2, r2, t) && AllFit(ws2, es2, r2, j2)
    requires StartOf(c, ws1, es1, r1, j1, t) == StartOf(c, ws2, es2, r2, j2, t)
    requires LandedSince(ws1, es1, r1, j1, t) == LandedSince(ws2, es2, r2, j2, t)
    ensures Proj(ws1[j1].sink.machine, t) == Proj(ws2[j2].sink.machine, t)
  {
    IncrementalCommit(c, log, first, ws1, es1, i1, j1, r1, t);
    IncrementalCommit(c, log, first, ws2, es2, i2, j2, r2, t);
  }

  /** From any state, the offsets committed for a partition strictly increase until it is revoked, and lie above
      its watermark. */
  lemma CommitsOnlyAdvance(c: Config, log: set<Record>, first: map<TopicId, int>, ws: seq<World>, es: seq<Event>,
                           i: nat, j: nat, t: TopicId)
    requires Stretch(c, log, first, ws, es, i, j) && Unrevoked(ws, es, i, j, t)
    ensures SentFor(ws[i].sink.sent, t) <= SentFor(ws[j].sink.sent, t)
    ensures var added := SentFor(ws[j].sink.sent, t)[|SentFor(ws[i].sink.sent, t)|..];
            && T.Increasing(added)
            && (t in ws[i].sink.machine.watermark ==> forall v | v in added :: v > ws[i].sink.machine.watermark[t])
  {
    WholeRunProjects(c, log, first, ws, es, i, j, t);
    TraceUnrevoked(c, ws, es, i, j, t);
    var tr, trace := Proj(ws[i].sink.machine, t), Trace(c, ws, es, i, j, t);
    T.CommitsIncrease(tr, trace);
    var before, added := SentFor(ws[i].sink.sent, t), T.Commits(tr, trace);
    assert (before + added)[|before|..] == added;
  }

  /** Without a watermark nothing is committed for a partition until one of its records is delivered. */
  lemma SilentUntilDelivered(c: Config, log: set<Record>, first: map<TopicId, int>, ws: seq<World>, es: seq<Event>,
                             i: nat, j: nat, t: TopicId)
    requires Stretch(c, log, first, ws, es, i, j) && t !in ws[i].sink.machine.watermark && Undelivered(es, i, j, t)
    ensures SentFor(ws[j].sink.sent, t) == SentFor(ws[i].sink.sent, t) && t !in ws[j].sink.machine.watermark
  {
    WholeRunProjects(c, log, first, ws, es, i, j, t);
    TraceUnconsumed(c, ws, es, i, j, t);
    T.SilentFrom(Proj(ws[i].sink.machine, t), Trace(c, ws, es, i, j, t));
    assert SentFor(ws[i].sink.sent, t) + [] == SentFor(ws[i].sink.sent, t);
  }

  /** A turn that handles a revocation of the partition and is not delivered a record of it. */
  lemma RevokingTurn(c: Config, log: set<Record>, w: World, e: Event, t: TopicId)
    requires Enabled(log, w, e) && e.LoopTurn? && !Unseen(w.pending, t) && !Brings(e, t)
    ensures var w' := Next(c, log, w, e);
            SentFor(w'.sink.sent, t) == SentFor(w.sink.sent, t) && t !in w'.sink.machine.watermark
  {
    var m1, m2, rs := TurnTracks(c, w.sink, w.pending, e.polled, e.env, t);
    RevokedForRuns(Proj(w.sink.machine, t), w.pending, t);
    UnbroughtSilent(c, w, e, t);
    assert SentFor(w.sink.sent, t) + [] == SentFor(w.sink.sent, t);
  }

  lemma UnbroughtSilent(c: Config, w: World, e: Event, t: TopicId)
    requires e.LoopTurn? && Pollable(w.sink, e.polled) && !Brings(e, t)
    ensures var es := EventOf(c, Select(w.sink, e.polled).1, t);
            T.Run(T.FRESH, es).wm.None? && T.Commits(T.FRESH, es) == []
  {
    T.SilentFrom(T.FRESH, EventOf(c, Select(w.sink, e.polled).1, t));
  }

  /** Once a turn has handled a revocation of a partition, nothing is committed for it until one of its records
      is delivered, whatever completions of its old uploads still arrive. */
  lemma LateCompletionsSilent(c: Config, log: set<Record>, first: map<TopicId, int>, ws: seq<World>, es: seq<Event>,
                              i: nat, j: nat, t: TopicId)
    requires Stretch(c, log, first, ws, es, i, j) && i < j && Undelivered(es, i, j, t)
    requires es[i].LoopTurn? && !Unseen(ws[i].pending, t)
    ensures SentFor(ws[j].sink.sent, t) == SentFor(ws[i].sink.sent, t) && t !in ws[j].sink.machine.watermark
  {
    RevokingTurn(c, log, ws[i], es[i], t);
    SilentUntilDelivered(c, log, first, ws, es, i + 1, j, t);
  }

  /** After reassignment, offsets reported below the new watermark change neither what is committed nor the
      watermark: the stretch commits what it would commit without them. */
  lemma StaleOffsetsIgnored(c: Config, log: set<Record>, first: map<TopicId, int>, ws: seq<World>, es: seq<Event>,
                            i: nat, j: nat, t: TopicId)
    requires Stretch(c, log, first, ws, es, i, j) && Unrevoked(ws, es, i, j, t) && t in ws[i].sink.machine.watermark
    ensures AllFit(ws, es, i, j)
    ensures var w := ws[i].sink.machine.watermark[t];
            var tr := T.Track(Some(w), T.From(UploadedOf(ws[i].sink.machine.uploaded, t), w));
            var trimmed := T.Trim(Trace(c, ws, es, i, j, t), w);
            && SentFor(ws[j].sink.sent, t) == SentFor(ws[i].sink.sent, t) + T.Commits(tr, trimmed)
            && Proj(ws[j].sink.machine, t).wm == T.Run(tr, trimmed).wm
  {
    WholeRunProjects(c, log, first, ws, es, i, j, t);
    TraceUnrevoked(c, ws, es, i, j, t);
    T.StaleIgnored(Proj(ws[i].sink.machine, t), Trace(c, ws, es, i, j, t), ws[i].sink.machine.watermark[t]);
  }
}
