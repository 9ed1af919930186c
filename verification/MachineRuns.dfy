/** What the state machine looks like from one partition: each request is one event of a track. */
module MachineRuns {
  import opened DataModel
  import opened Config
  import opened MachineModel
  import T = Track

  /** What the state machine tracks for one partition. */
  function Proj(m: Machine, t: TopicId): T.Track {
    T.Track(if t in m.watermark then Some(m.watermark[t]) else None, UploadedOf(m.uploaded, t))
  }

  /** What a request means to one partition. */
  function EventOf(c: Config, request: Request, t: TopicId): seq<T.Event> {
    match request
    case ProcessRecord(r) => if c.route(r).Some? && r.Tid() == t then [T.Consumed(r.offset)] else []
    case UploadCompletion(Success(_, os)) => if t in os then [T.Uploaded(AsSet(os[t]))] else []
    case CommitTick(a) => [T.Tick(t in a)]
    case FinalCommit(a) => [T.Tick(t in a)]
    case RevokePartitions(ts) => if t in ts then [T.Revoked] else []
    case _ => []
  }

  /** The list a response commits. */
  function CommitOf(r: Response): CommitList {
    match r
    case CommitAsync(tpl) => tpl
    case CommitSync(tpl) => tpl
    case _ => map[]
  }

  function ValueFor(tpl: CommitList, t: TopicId): seq<int> {
    if t in tpl then [tpl[t]] else []
  }

  /** What some responses commit for one partition. */
  function CommittedFor(rs: seq<Response>, t: TopicId): seq<int> {
    if rs == [] then [] else CommittedFor(rs[..|rs| - 1], t) + ValueFor(CommitOf(rs[|rs| - 1]), t)
  }

  lemma RunOne(tr: T.Track, e: T.Event)
    ensures T.Run(tr, [e]) == T.Step(tr, e).0
    ensures T.Commits(tr, [e]) == if T.Step(tr, e).1.Some? then [T.Step(tr, e).1.value] else []
  {
    assert [e][..0] == [];
  }

  lemma NoCommits(rs: seq<Response>, t: TopicId)
    requires forall r | r in rs :: !r.CommitAsync? && !r.CommitSync?
    ensures CommittedFor(rs, t) == []
  {
    if rs != [] {
      assert forall r | r in rs[..|rs| - 1] :: r in rs;
      NoCommits(rs[..|rs| - 1], t);
    }
  }

  lemma {:induction false} DeletionsSilent(files: map<StreamId, Path>, gone: set<StreamId>, order: seq<StreamId>)
    ensures forall r | r in Deletions(files, gone, order) :: !r.CommitAsync? && !r.CommitSync?
  {
    if order != [] {
      DeletionsSilent(files, gone, order[..|order| - 1]);
    }
  }

  lemma AppendSilent(c: Config, m: Machine, id: StreamId, line: Bytes, env: Env)
    requires id in m.streams
    ensures var (m', rs) := Appended(c, m, id, line, env);
            && (forall x | x in rs :: !x.CommitAsync? && !x.CommitSync?)
            && m'.uploaded == m.uploaded && m'.watermark == m.watermark
  {
  }

  lemma ProcessSilent(c: Config, m: Machine, r: Record, env: Env)
    ensures var (m', rs) := HandleProcessRecord(c, m, r, env);
            && (forall x | x in rs :: !x.CommitAsync? && !x.CommitSync?)
            && m'.uploaded == m.uploaded
            && m'.watermark == if c.route(r).None? || r.Tid() in m.watermark then m.watermark
                               else m.watermark[r.Tid() := r.offset]
  {
    if c.route(r).Some? && c.line(r).Ok? && c.line(r).value.Some? {
      var id := c.route(r).value;
      AppendSilent(c, Noted(m, r, id, env.now), id, c.line(r).value.value, env);
    }
  }

  lemma ScanProjects(m: Machine, assignment: set<TopicId>, t: TopicId)
    ensures var (tr, commit) := T.Step(Proj(m, t), T.Tick(t in assignment));
            && Proj(Committed(m, assignment), t) == tr
            && (t in CommitListOf(m, assignment) <==> commit.Some?)
            && (commit.Some? ==> CommitListOf(m, assignment)[t] == commit.value)
  {
    if t in assignment && t in m.watermark {
      var reach := Reach(m, t);
      if t !in m.uploaded {
        T.FirstGapUnique(m.watermark[t], {}, m.watermark[t]);
        assert T.From({}, reach) == {};
      }
    }
  }

  /** Requests that mean nothing to a partition, or only a first offset, commit nothing. */
  lemma SilentProjects(c: Config, m: Machine, request: Request, env: Env, t: TopicId)
    requires request.ProcessRecord? || request.UploadTick? || request.ShutdownSignal?
    ensures var (m', rs) := Handle(c, m, request, env);
            && Proj(m', t) == T.Run(Proj(m, t), EventOf(c, request, t))
            && CommittedFor(rs, t) == T.Commits(Proj(m, t), EventOf(c, request, t))
  {
    var rs := Handle(c, m, request, env).1;
    if EventOf(c, request, t) != [] {
      RunOne(Proj(m, t), EventOf(c, request, t)[0]);
    }
    match request
    case ProcessRecord(r) =>
      ProcessSilent(c, m, r, env);
      NoCommits(rs, t);
    case UploadTick =>
      SealAllFrame(c, m, Due(c, m, env), env);
      NoCommits(rs, t);
    case ShutdownSignal =>
      SealAllFrame(c, m, env.order, env);
      NoCommits(rs, t);
  }

  /** Each request acts on a partition's track as the event it means to that partition. */
  lemma Projects(c: Config, m: Machine, request: Request, env: Env, t: TopicId)
    ensures var (m', rs) := Handle(c, m, request, env);
            && Proj(m', t) == T.Run(Proj(m, t), EventOf(c, request, t))
            && CommittedFor(rs, t) == T.Commits(Proj(m, t), EventOf(c, request, t))
  {
    var rs := Handle(c, m, request, env).1;
    if EventOf(c, request, t) != [] {
      RunOne(Proj(m, t), EventOf(c, request, t)[0]);
    }
    match request
    case RevokePartitions(ts) =>
      DeletionsSilent(m.registry.files, RevokedStreams(m.streams, ts), env.order);
      NoCommits(rs, t);
    case UploadCompletion(result) => NoCommits(rs, t);
    case CommitTick(a) =>
      ScanProjects(m, a, t);
      OneCommit(CommitAsync(CommitListOf(m, a)), t);
    case FinalCommit(a) =>
      ScanProjects(m, a, t);
      OneCommit(CommitSync(CommitListOf(m, a)), t);
    case _ => SilentProjects(c, m, request, env, t);
  }

  lemma OneCommit(r: Response, t: TopicId)
    ensures CommittedFor([r], t) == ValueFor(CommitOf(r), t)
  {
    assert [r][..0] == [];
  }

  /** Whatever an assigned, watermarked partition keeps after a commit lies strictly above its watermark. */
  lemma RetainedAboveWatermark(m: Machine, assignment: set<TopicId>, t: TopicId)
    requires t in assignment && t in m.watermark
    ensures var m' := Committed(m, assignment);
            t in m'.watermark && forall x | x in UploadedOf(m'.uploaded, t) :: x > m'.watermark[t]
  {
    ScanProjects(m, assignment, t);
    T.RetainedAbove(Proj(m, t));
  }
}
