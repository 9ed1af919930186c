/** A partition in the life of a program that keeps it: from the program's start on it is never revoked,
    and every commit tick after its assignment finds it assigned. What is consumed, what lands in the
    store and what the state machine tracks then fit together. */
module CalmRuns {
  import opened DataModel
  import opened Config
  import opened FileRegistry
  import opened Ledger
  import opened MachineModel
  import opened MachineInvariant
  import opened MachineRuns
  import opened SinkModel
  import opened World
  import opened WorldInvariant
  import opened AtLeastOnce
  import opened Accounting
  import opened Books
  import opened Sums
  import T = Track

  // ----- what was consumed, and what landed

  /** The first offset of a partition in a list of records. */
  function FirstOf(rs: seq<Record>, t: TopicId): Option<int> {
    if rs == [] then None
    else
      var first := FirstOf(rs[..|rs| - 1], t);
      if first.None? && rs[|rs| - 1].Tid() == t then Some(rs[|rs| - 1].offset) else first
  }

  /** The last offset of a partition in a list of records. */
  function LastOf(rs: seq<Record>, t: TopicId): (last: Option<int>)
    ensures last.Some? <==> FirstOf(rs, t).Some?
  {
    if rs == [] then None
    else if rs[|rs| - 1].Tid() == t then Some(rs[|rs| - 1].offset)
    else LastOf(rs[..|rs| - 1], t)
  }

  function OffsetsIn(rs: seq<Record>, t: TopicId): set<int> {
    set r | r in rs && r.Tid() == t :: r.offset
  }

  function LandedOffsets(landed: seq<ToUpload>, t: TopicId): set<int> {
    if landed == [] then {}
    else LandedOffsets(landed[..|landed| - 1], t) + AsSet(Listed(landed[|landed| - 1].file.offsetsConsumed, t))
  }

  lemma {:induction false} OccursIn(rs: seq<Record>, t: TopicId, offset: int)
    ensures Occurrences(rs, t, offset) > 0 <==> offset in OffsetsIn(rs, t)
  {
    if rs != [] {
      var init, last := rs[..|rs| - 1], rs[|rs| - 1];
      assert rs == init + [last];
      OccursIn(init, t, offset);
    }
  }

  lemma {:induction false} LandedIn(landed: seq<ToUpload>, t: TopicId, offset: int)
    ensures SeqSum(landed, InUpload(t, offset)) > 0 <==> offset in LandedOffsets(landed, t)
  {
    if landed != [] {
      LandedIn(landed[..|landed| - 1], t, offset);
    }
  }

  lemma LandedSnoc(landed: seq<ToUpload>, u: ToUpload, t: TopicId)
    ensures LandedOffsets(landed + [u], t) == LandedOffsets(landed, t) + AsSet(Listed(u.file.offsetsConsumed, t))
  {
    assert (landed + [u])[..|landed|] == landed;
  }

  lemma RecordsSnoc(rs: seq<Record>, r: Record, t: TopicId, offset: int)
    ensures FirstOf(rs + [r], t)
            == if FirstOf(rs, t).None? && r.Tid() == t then Some(r.offset) else FirstOf(rs, t)
    ensures LastOf(rs + [r], t) == if r.Tid() == t then Some(r.offset) else LastOf(rs, t)
    ensures Occurrences(rs + [r], t, offset)
            == Occurrences(rs, t, offset) + if r.Tid() == t && r.offset == offset then 1 else 0
  {
    assert (rs + [r])[..|rs|] == rs;
  }

  // ----- the invariant

  /** The log has a record at an offset of a partition. */
  predicate InLog(log: set<Record>, t: TopicId, offset: int) {
    exists r :: r in log && r.Tid() == t && r.offset == offset
  }

  /** The records of a partition are consumed in the order of its log, without leaving one out, up to the
      consumer's position. */
  ghost predicate InOrder(log: set<Record>, consumed: seq<Record>, t: TopicId, position: int) {
    && FirstOf(consumed, t).Some? && LastOf(consumed, t) == Some(position - 1)
    && (forall o :: Occurrences(consumed, t, o) <= 1)
    && (forall o | Occurrences(consumed, t, o) > 0 :: FirstOf(consumed, t).value <= o < position)
    && (forall r | r in log && r.Tid() == t && FirstOf(consumed, t).value <= r.offset < position ::
          Occurrences(consumed, t, r.offset) > 0)
    && Occurrences(consumed, t, position - 1) > 0
    && Occurrences(consumed, t, FirstOf(consumed, t).value) > 0
    && forall o | Occurrences(consumed, t, o) > 0 :: InLog(log, t, o)
  }

  ghost predicate NeverConsumed(consumed: seq<Record>, t: TopicId) {
    FirstOf(consumed, t).None? && forall o :: Occurrences(consumed, t, o) == 0
  }

  ghost predicate ConsumedOk(log: set<Record>, w: World, t: TopicId) {
    || NeverConsumed(w.sink.machine.history.consumed, t)
    || (t in w.owned && t in w.position && InOrder(log, w.sink.machine.history.consumed, t, w.position[t]))
  }

  /** What the state machine tracks for the partition stands for all that was consumed and all that landed. */
  ghost predicate Tracked(w: World, t: TopicId) {
    T.StandsFor(Proj(w.sink.machine, t), FirstOf(w.sink.machine.history.consumed, t), LandedOffsets(w.landed, t))
  }

  ghost predicate Calm(log: set<Record>, w: World, t: TopicId) {
    Unseen(w.pending, t) && t !in w.revoked && ConsumedOk(log, w, t) && Tracked(w, t)
  }

  /** The partition is not revoked, and a commit tick that comes after its assignment finds it assigned. */
  predicate Keeps(w: World, e: Event, t: TopicId) {
    match e
    case Revoke(ts) => t !in ts
    case LoopTurn(CommitTimer(assignment), _) => t in w.owned ==> t in assignment
    case Crash(_) => false
    case _ => true
  }

  // ----- consuming in order

  lemma NextInOrder(log: set<Record>, consumed: seq<Record>, t: TopicId, position: int, r: Record)
    requires NextRecord(log, t, position, r)
    requires NeverConsumed(consumed, t) || InOrder(log, consumed, t, position)
    ensures InOrder(log, consumed + [r], t, r.offset + 1)
  {
    var after := consumed + [r];
    forall o
      ensures Occurrences(after, t, o) == Occurrences(consumed, t, o) + if o == r.offset then 1 else 0
    {
      RecordsSnoc(consumed, r, t, o);
    }
    RecordsSnoc(consumed, r, t, 0);
  }

  lemma OtherInOrder(log: set<Record>, consumed: seq<Record>, t: TopicId, position: int, r: Record)
    requires r.Tid() != t
    ensures NeverConsumed(consumed, t) ==> NeverConsumed(consumed + [r], t)
    ensures InOrder(log, consumed, t, position) ==> InOrder(log, consumed + [r], t, position)
  {
    forall o
      ensures Occurrences(consumed + [r], t, o) == Occurrences(consumed, t, o)
    {
      RecordsSnoc(consumed, r, t, o);
    }
    RecordsSnoc(consumed, r, t, 0);
  }

  /** What the requests of a turn add to the records consumed. */
  function NewRecords(p: Polled): seq<Record> {
    if p.Received? then [p.record] else []
  }

  lemma TurnConsumedOk(log: set<Record>, w: World, p: Polled, env: Env, w': World, t: TopicId)
    requires Enabled(log, w, LoopTurn(p, env)) && ConsumedOk(log, w, t)
    requires w'.sink.machine.history.consumed == w.sink.machine.history.consumed + NewRecords(p)
    requires w'.owned == w.owned
    requires w'.position == if p.Received? then w.position[p.record.Tid() := p.record.offset + 1] else w.position
    ensures ConsumedOk(log, w', t)
  {
    var consumed := w.sink.machine.history.consumed;
    if p.Received? {
      if p.record.Tid() == t {
        NextInOrder(log, consumed, t, w.position[t], p.record);
      } else {
        OtherInOrder(log, consumed, t, if t in w.position then w.position[t] else 0, p.record);
      }
    } else {
      assert consumed + [] == consumed;
    }
  }

  // ----- what a turn consumes and tracks

  lemma RecordConsumes(c: Config, m: Machine, r: Record, env: Env)
    ensures var (m', rs) := HandleProcessRecord(c, m, r, env);
            NoFatal(rs) ==> m'.history.consumed == m.history.consumed + [r] && c.route(r).Some?
  {
    ProcessCases(c, m, r, env);
    if c.route(r).Some? {
      var id := c.route(r).value;
      var m2 := Consumed(c, m, r, id, env.now);
      assert m2.history.consumed == m.history.consumed + [r] && id in m2.streams;
    }
  }

  lemma RequestConsumes(c: Config, m: Machine, request: Request, env: Env)
    requires !request.RevokePartitions?
    ensures var (m', rs) := Handle(c, m, request, env);
            NoFatal(rs) ==>
              && m'.history.consumed == m.history.consumed + (if request.ProcessRecord? then [request.record] else [])
              && (request.ProcessRecord? ==> c.route(request.record).Some?)
  {
    assert m.history.consumed + [] == m.history.consumed;
    match request
    case ProcessRecord(r) => RecordConsumes(c, m, r, env);
    case UploadTick =>
      SealAllFrame(c, m, Due(c, m, env), env);
    case ShutdownSignal => SealAllFrame(c, m, env.order, env);
    case _ =>
  }

  /** Revocations of other partitions do not touch what is tracked for this one. */
  lemma {:induction false} RevocationsElsewhere(m: Machine, pending: seq<set<TopicId>>, env: Env, t: TopicId)
    requires Unseen(pending, t)
    ensures var m' := AfterRevocations(m, pending, env);
            Proj(m', t) == Proj(m, t) && m'.history.consumed == m.history.consumed
  {
    if pending != [] {
      var init, last := pending[..|pending| - 1], pending[|pending| - 1];
      assert last in pending && forall ts | ts in init :: ts in pending;
      RevocationsElsewhere(m, init, env, t);
      var (m2, rs) := HandleRevokePartitions(AfterRevocations(m, init, env), last, env);
      CleanedSame(m2, rs);
    }
  }

  /** What a turn that does not stop the sink leaves, as one partition sees it. */
  ghost predicate Turned(c: Config, w: World, p: Polled, t: TopicId, w': World)
    requires Pollable(w.sink, p)
  {
    && Proj(w'.sink.machine, t) == T.Run(Proj(w.sink.machine, t), EventOf(c, Select(w.sink, p).1, t))
    && w'.sink.machine.history.consumed == w.sink.machine.history.consumed + NewRecords(p)
    && (p.Received? ==> c.route(p.record).Some?)
    && w'.landed == (if p.UploadDone? then LandedAfter(w, p.index, p.ok) else w.landed)
    && w'.owned == w.owned && w'.pending == [] && w'.revoked == w.revoked
    && w'.position == (if p.Received? then w.position[p.record.Tid() := p.record.offset + 1] else w.position)
  }

  lemma TurnProjects(c: Config, log: set<Record>, first: map<TopicId, int>, w: World, p: Polled, env: Env, t: TopicId)
    requires WorldInv(c, log, first, w) && Enabled(log, w, LoopTurn(p, env)) && Unseen(w.pending, t)
    ensures var w' := Next(c, log, w, LoopTurn(p, env));
            !w'.sink.phase.Stopped? ==> Turned(c, w, p, t, w')
  {
    TurnProjectsParts(c, log, first, w, p, env, t);
    TurnNext(c, log, w, p, env);
  }

  /** Carrying out responses changes nothing that is tracked or consumed. */
  lemma CarriedOutTracks(s: Sink, rs: seq<Response>, s': Sink, t: TopicId)
    requires CarriedOut(s, rs, s')
    ensures NoFatal(rs) && Proj(s'.machine, t) == Proj(s.machine, t)
    ensures s'.machine.history == s.machine.history
  {
    CleanedSame(s.machine, rs);
  }

  lemma TurnProjectsParts(c: Config, log: set<Record>, first: map<TopicId, int>, w: World, p: Polled, env: Env,
                          t: TopicId)
    requires WorldInv(c, log, first, w) && Enabled(log, w, LoopTurn(p, env)) && Unseen(w.pending, t)
    ensures var s' := Turn(c, w.sink, w.pending, p, env);
            !s'.phase.Stopped? ==>
              && Proj(s'.machine, t) == T.Run(Proj(w.sink.machine, t), EventOf(c, Select(w.sink, p).1, t))
              && s'.machine.history.consumed == w.sink.machine.history.consumed + NewRecords(p)
              && (p.Received? ==> c.route(p.record).Some?)
  {
    var s1, request := Select(w.sink, p).0, Select(w.sink, p).1;
    var m1 := AfterRevocations(s1.machine, w.pending, env);
    RevocationsElsewhere(w.sink.machine, w.pending, env, t);
    var m2, rs := TurnHandled(c, log, first, w, p, env, s1, request, m1);
    Projects(c, m1, request, env, t);
    RequestConsumes(c, m1, request, env);
    var s' := Turn(c, w.sink, w.pending, p, env);
    if !s'.phase.Stopped? {
      CarriedOutTracks(s1.(machine := m2), rs, s', t);
    }
  }

  // ----- what is tracked

  /** A selected request means to a partition what it adds to the records consumed and to the uploads landed. */
  lemma EventMeans(c: Config, w: World, p: Polled, t: TopicId)
    requires Pollable(w.sink, p) && (p.Received? ==> c.route(p.record).Some?)
    ensures var es, consumed := EventOf(c, Select(w.sink, p).1, t), w.sink.machine.history.consumed;
            var landed := if p.UploadDone? then LandedAfter(w, p.index, p.ok) else w.landed;
            var f, full := FirstOf(consumed, t), LandedOffsets(w.landed, t);
            && |es| <= 1
            && FirstOf(consumed + NewRecords(p), t) == (if es == [] then f else T.FirstAfter(f, es[0]))
            && LandedOffsets(landed, t) == (if es == [] then full else T.FullAfter(full, es[0]))
            && (es != [] ==> es[0] != T.Revoked && (es[0] == T.Tick(false) ==> p.CommitTimer? && t !in p.assignment))
  {
    assert w.sink.machine.history.consumed + [] == w.sink.machine.history.consumed;
    assert AsSet([]) == {};
    match p
    case UploadDone(i, ok) => LandedSnoc(w.landed, w.sink.pool[i], t);
    case Received(r) => RecordsSnoc(w.sink.machine.history.consumed, r, t, 0);
    case _ =>
  }

  /** What a selected request makes of what is tracked. */
  lemma TurnTracked(c: Config, w: World, p: Polled, t: TopicId, w': World)
    requires Pollable(w.sink, p) && Tracked(w, t)
    requires Proj(w'.sink.machine, t) == T.Run(Proj(w.sink.machine, t), EventOf(c, Select(w.sink, p).1, t))
    requires w'.sink.machine.history.consumed == w.sink.machine.history.consumed + NewRecords(p)
    requires p.Received? ==> c.route(p.record).Some?
    requires w'.landed == if p.UploadDone? then LandedAfter(w, p.index, p.ok) else w.landed
    requires p.CommitTimer? && t !in p.assignment ==>
               FirstOf(w.sink.machine.history.consumed, t).None? && LandedOffsets(w.landed, t) == {}
    ensures Tracked(w', t)
  {
    EventMeans(c, w, p, t);
    T.StandsAfter(Proj(w.sink.machine, t), FirstOf(w.sink.machine.history.consumed, t), LandedOffsets(w.landed, t),
                  EventOf(c, Select(w.sink, p).1, t));
  }

  /** Nothing lands for a partition that was never consumed. */
  ghost predicate LandsOnlyConsumed(w: World, t: TopicId) {
    NeverConsumed(w.sink.machine.history.consumed, t) ==> LandedOffsets(w.landed, t) == {}
  }

  lemma NothingLands(w: World, t: TopicId)
    requires Conserved(w)
    ensures LandsOnlyConsumed(w, t)
  {
    if NeverConsumed(w.sink.machine.history.consumed, t) {
      forall o
        ensures o !in LandedOffsets(w.landed, t)
      {
        LandedIn(w.landed, t, o);
        assert Occurrences(w.sink.machine.history.consumed, t, o) == 0;
      }
    }
  }

  lemma TurnStaysCalm(c: Config, log: set<Record>, w: World, p: Polled, env: Env, t: TopicId, w': World)
    requires LandsOnlyConsumed(w, t) && Enabled(log, w, LoopTurn(p, env))
    requires Calm(log, w, t) && Keeps(w, LoopTurn(p, env), t) && Turned(c, w, p, t, w')
    ensures Calm(log, w', t)
  {
    TurnConsumedOk(log, w, p, env, w', t);
    TurnTracked(c, w, p, t, w');
  }

  lemma TurnCalm(c: Config, log: set<Record>, first: map<TopicId, int>, w: World, p: Polled, env: Env, t: TopicId)
    requires WorldInv(c, log, first, w) && LandsOnlyConsumed(w, t) && Enabled(log, w, LoopTurn(p, env))
    requires Calm(log, w, t) && Keeps(w, LoopTurn(p, env), t)
    ensures var w' := Next(c, log, w, LoopTurn(p, env)); !w'.sink.phase.Stopped? ==> Calm(log, w', t)
  {
    var w' := Next(c, log, w, LoopTurn(p, env));
    if !w'.sink.phase.Stopped? {
      TurnProjects(c, log, first, w, p, env, t);
      TurnStaysCalm(c, log, w, p, env, t, w');
    }
  }

  lemma DrainCalm(c: Config, log: set<Record>, w: World, i: nat, ok: bool, t: TopicId)
    requires Enabled(log, w, DrainUpload(i, ok)) && Calm(log, w, t)
    ensures Calm(log, Next(c, log, w, DrainUpload(i, ok)), t)
  {
    var w' := Next(c, log, w, DrainUpload(i, ok));
    var p := UploadDone(i, ok);
    Projects(c, w.sink.machine, Select(w.sink, p).1, Env(0, [], NoFault, {}), t);
    assert w.sink.machine.history.consumed + [] == w.sink.machine.history.consumed;
    TurnTracked(c, w, p, t, w');
  }

  lemma StepCalm(c: Config, log: set<Record>, first: map<TopicId, int>, w: World, e: Event, t: TopicId)
    requires WorldInv(c, log, first, w) && Conserved(w) && Enabled(log, w, e)
    requires Calm(log, w, t) && Keeps(w, e, t)
    ensures var w' := Next(c, log, w, e); !w'.sink.phase.Stopped? ==> Calm(log, w', t)
  {
    NothingLands(w, t);
    match e
    case LoopTurn(p, env) => TurnCalm(c, log, first, w, p, env, t);
    case DrainUpload(i, ok) => DrainCalm(c, log, w, i, ok, t);
    case Assign(_) => QuietCalm(log, w, Next(c, log, w, e), t);
    case Revoke(_) => QuietCalm(log, w, Next(c, log, w, e), t);
    case BrokerApplies(_) => QuietCalm(log, w, Next(c, log, w, e), t);
    case Others(_, _) => QuietCalm(log, w, Next(c, log, w, e), t);
    case FinalTurn(_) =>
    case Crash(_) =>
  }

  lemma QuietCalm(log: set<Record>, w: World, w': World, t: TopicId)
    requires Calm(log, w, t) && w'.sink == w.sink && w'.landed == w.landed
    requires Unseen(w'.pending, t) && t !in w'.revoked
    requires t in w.owned ==> t in w'.owned
    requires t in w.owned && t in w.position ==> t in w'.position && w'.position[t] == w.position[t]
    ensures Calm(log, w', t)
  {
  }
}
