/** Graceful shutdown: what the drain and the last commit leave. */
module Shutdown {
  import opened DataModel
  import opened Config
  import opened Ledger
  import opened MachineModel
  import opened MachineInvariant
  import opened MachineRuns
  import opened SinkModel
  import opened World
  import opened WorldInvariant
  import opened AtLeastOnce
  import opened Accounting
  import opened Books
  import opened CalmRuns
  import opened CommitRuns
  import opened Sums
  import opened StateMachine
  import opened Sealing
  import T = Track

  // ----- when the drain is reached

  /** A shutdown signal leads into the drain exactly when every stream that survives the pending revocations
      has consumed bytes and its file can be closed; otherwise the sink stops without committing. */
  lemma DrainReached(c: Config, log: set<Record>, first: map<TopicId, int>, ws: seq<World>, es: seq<Event>,
                     i: nat, env: Env)
    requires IsRun(c, log, first, ws, es) && i < |ws| && Enabled(log, ws[i], LoopTurn(Terminated, env))
    ensures var s' := Turn(c, ws[i].sink, ws[i].pending, Terminated, env);
            var m := AfterRevocations(ws[i].sink.machine, ws[i].pending, env);
            && (s'.phase.Draining? <==>
                  forall id | id in m.streams :: m.streams[id].bytesConsumed > 0 && id !in env.closeFails)
            && (s'.phase.Draining? || s'.phase.Stopped?)
  {
    ReachableBooked(c, log, first, ws, es, i);
    var w := ws[i];
    var m, m2, rs := SignalParts(c, log, first, w, env);
    DrainDispatched(c, w.sink.(machine := m2), rs);
    SignalStreams(c, m, env, rs);
  }

  lemma SignalParts(c: Config, log: set<Record>, first: map<TopicId, int>, w: World, env: Env)
    returns (m: Machine, m2: Machine, rs: seq<Response>)
    requires WorldInv(c, log, first, w) && Booked(c, w) && Enabled(log, w, LoopTurn(Terminated, env))
    ensures m == AfterRevocations(w.sink.machine, w.pending, env) && FilesMatch(m)
    ensures (m2, rs) == SealAll(c, m, env.order, env)
    ensures Turn(c, w.sink, w.pending, Terminated, env) == Dispatch(w.sink.(machine := m2), rs + [DrainAndShutdown])
    ensures forall r | r in rs :: r.ReadyForUpload? || r.Fatal?
    ensures Visits(env.order, m.streams)
  {
    m := AfterRevocations(w.sink.machine, w.pending, env);
    RevocationsBooked(c, w.sink.machine, w.sink.pool, w.pending, env, w.revoked);
    m2, rs := SealAll(c, m, env.order, env).0, SealAll(c, m, env.order, env).1;
    SealAllFrame(c, m, env.order, env);
    SignalTurn(c, w.sink, w.pending, env);
  }

  lemma SignalTurn(c: Config, s: Sink, pending: seq<set<TopicId>>, env: Env)
    ensures var (m2, rs) := SealAll(c, AfterRevocations(s.machine, pending, env), env.order, env);
            Turn(c, s, pending, Terminated, env) == Dispatch(s.(machine := m2), rs + [DrainAndShutdown])
  {
  }

  /** Uploads followed by the request to drain lead into the drain unless one of them is fatal. */
  lemma DrainDispatched(c: Config, s: Sink, rs: seq<Response>)
    requires s.phase.Running? && forall r | r in rs :: r.ReadyForUpload? || r.Fatal?
    ensures var s' := Dispatch(s, rs + [DrainAndShutdown]);
            (s'.phase.Draining? <==> NoFatal(rs)) && (s'.phase.Draining? || s'.phase.Stopped?)
  {
    assert (rs + [DrainAndShutdown])[..|rs|] == rs;
    UploadsDispatched(s, rs);
  }

  lemma {:induction false} UploadsDispatched(s: Sink, rs: seq<Response>)
    requires s.phase.Running? && forall r | r in rs :: r.ReadyForUpload? || r.Fatal?
    ensures var s' := Dispatch(s, rs);
            && (s'.phase.Running? <==> NoFatal(rs)) && (s'.phase.Running? || s'.phase.Stopped?)
            && s'.machine == s.machine
  {
    if rs != [] {
      var init, last := rs[..|rs| - 1], rs[|rs| - 1];
      assert rs == init + [last];
      UploadsDispatched(s, init);
    }
  }

  lemma SignalStreams(c: Config, m: Machine, env: Env, rs: seq<Response>)
    requires FilesMatch(m) && Visits(env.order, m.streams) && rs == SealAll(c, m, env.order, env).1
    ensures NoFatal(rs) <==> forall id | id in m.streams :: m.streams[id].bytesConsumed > 0 && id !in env.closeFails
  {
    SealAllSucceeds(c, m, env.order, env);
  }

  // ----- nothing is active during the drain

  predicate NothingActive(w: World) {
    w.sink.phase.Draining? ==> w.sink.machine.streams == map[]
  }

  lemma SignalEmpties(c: Config, log: set<Record>, first: map<TopicId, int>, w: World, env: Env)
    requires WorldInv(c, log, first, w) && Booked(c, w) && Enabled(log, w, LoopTurn(Terminated, env))
    ensures var s' := Turn(c, w.sink, w.pending, Terminated, env); s'.phase.Draining? ==> s'.machine.streams == map[]
  {
    var m, m2, rs := SignalParts(c, log, first, w, env);
    SealAllFrame(c, m, env.order, env);
    assert m2.streams == map[];
    var s := w.sink.(machine := m2);
    assert (rs + [DrainAndShutdown])[..|rs|] == rs;
    UploadsDispatched(s, rs);
  }

  lemma OtherTurns(c: Config, log: set<Record>, first: map<TopicId, int>, w: World, p: Polled, env: Env)
    requires WorldInv(c, log, first, w) && Booked(c, w) && Enabled(log, w, LoopTurn(p, env)) && !p.Terminated?
    ensures !Turn(c, w.sink, w.pending, p, env).phase.Draining?
  {
    var m1, s1, request, m2, rs := TurnAccounts(c, log, first, w, p, env);
  }

  lemma StepNothingActive(c: Config, log: set<Record>, first: map<TopicId, int>, w: World, e: Event)
    requires WorldInv(c, log, first, w) && Enabled(log, w, e) && (!w.sink.phase.Stopped? ==> Booked(c, w))
    requires NothingActive(w)
    ensures NothingActive(Next(c, log, w, e))
  {
    match e
    case LoopTurn(p, env) =>
      if p.Terminated? {
        SignalEmpties(c, log, first, w, env);
      } else {
        OtherTurns(c, log, first, w, p, env);
      }
    case _ =>
  }

  ghost predicate StaysEmpty(w: World, w': World) {
    NothingActive(w) ==> NothingActive(w')
  }

  lemma {:induction false} EmptyOn(ws: seq<World>, i: nat)
    requires i < |ws| && NothingActive(ws[0]) && forall k | 0 <= k < i :: StaysEmpty(ws[k], ws[k + 1])
    ensures NothingActive(ws[i])
  {
    if i > 0 {
      var k := i - 1;
      EmptyOn(ws, k);
      assert StaysEmpty(ws[k], ws[k + 1]);
    }
  }

  lemma ReachableNothingActive(c: Config, log: set<Record>, first: map<TopicId, int>, ws: seq<World>, es: seq<Event>,
                               i: nat)
    requires IsRun(c, log, first, ws, es) && i < |ws|
    ensures NothingActive(ws[i])
  {
    forall k | 0 <= k < i
      ensures StaysEmpty(ws[k], ws[k + 1])
    {
      if NothingActive(ws[k]) {
        ReachableBooked(c, log, first, ws, es, k);
        StepNothingActive(c, log, first, ws[k], es[k]);
      }
    }
    EmptyOn(ws, i);
  }

  // ----- the drain, event by event

  /** The world after some completions of the drain. */
  function AfterDrain(c: Config, log: set<Record>, w: World, script: Script, n: nat): (w': World)
    requires w.sink.phase.Draining? && Drains(script, w.sink.pool) && n <= |script|
    ensures w'.sink == Drained(w.sink, script, n)
  {
    if n == 0 then w
    else
      var w1 := AfterDrain(c, log, w, script, n - 1);
      if w1.sink.phase.Draining? then Next(c, log, w1, DrainUpload(script[n - 1].0, script[n - 1].1)) else w1
  }

  /** The drain is a sequence of its events: a completion for each outstanding upload and, unless one of them
      is fatal, the final turn. */
  lemma DrainIsEvents(c: Config, log: set<Record>, w: World, script: Script, assignment: set<TopicId>)
    requires w.sink.phase.Draining? && Drains(script, w.sink.pool)
    ensures var w' := AfterDrain(c, log, w, script, |script|);
            && (w'.sink.phase.Draining? ==> Enabled(log, w', FinalTurn(assignment)))
            && SinkModel.DrainAndShutdown(w.sink, script, assignment)
               == if w'.sink.phase.Draining? then Next(c, log, w', FinalTurn(assignment)).sink else w'.sink
  {
  }

  // ----- a partition that is kept from the start of the program

  predicate Starts(es: seq<Event>, i: nat)
    requires i <= |es|
  {
    i == 0 || es[i - 1].Crash?
  }

  lemma StartCalm(log: set<Record>, w: World, t: TopicId)
    requires w.sink.machine.history == EMPTY && w.sink.machine.uploaded == map[] && w.sink.machine.watermark == map[]
    requires w.landed == [] && w.pending == [] && w.revoked == {}
    ensures Calm(log, w, t)
  {
  }

  /** The partition stays calm, whatever the event. */
  ghost predicate StaysCalm(log: set<Record>, w: World, w': World, t: TopicId) {
    (!w.sink.phase.Stopped? ==> Calm(log, w, t)) ==> (!w'.sink.phase.Stopped? ==> Calm(log, w', t))
  }

  lemma RunStaysCalm(c: Config, log: set<Record>, first: map<TopicId, int>, ws: seq<World>, es: seq<Event>,
                     k: nat, t: TopicId)
    requires IsRun(c, log, first, ws, es) && k < |es| && Keeps(ws[k], es[k], t)
    ensures StaysCalm(log, ws[k], ws[k + 1], t)
  {
    ReachableBooked(c, log, first, ws, es, k);
    if ws[k].sink.phase.Stopped? {
      StoppedStays(c, log, ws[k], es[k]);
    } else if Calm(log, ws[k], t) {
      StepCalm(c, log, first, ws[k], es[k], t);
    }
  }

  lemma StoppedStays(c: Config, log: set<Record>, w: World, e: Event)
    requires Enabled(log, w, e) && !e.Crash? && w.sink.phase.Stopped?
    ensures Next(c, log, w, e).sink.phase.Stopped?
  {
  }

  lemma {:induction false} CalmOn(log: set<Record>, ws: seq<World>, i: nat, j: nat, t: TopicId)
    requires i <= j < |ws| && Calm(log, ws[i], t)
    requires forall k | i <= k < j :: StaysCalm(log, ws[k], ws[k + 1], t)
    ensures !ws[j].sink.phase.Stopped? ==> Calm(log, ws[j], t)
    decreases j - i
  {
    if i < j {
      var k := j - 1;
      CalmOn(log, ws, i, k, t);
      assert StaysCalm(log, ws[k], ws[k + 1], t);
    }
  }

  lemma RunCalm(c: Config, log: set<Record>, first: map<TopicId, int>, ws: seq<World>, es: seq<Event>,
                i: nat, j: nat, t: TopicId)
    requires IsRun(c, log, first, ws, es) && i <= j <= |es| && Starts(es, i)
    requires forall k | i <= k < j :: Keeps(ws[k], es[k], t)
    ensures !ws[j].sink.phase.Stopped? ==> Calm(log, ws[j], t)
  {
    StartCalm(log, ws[i], t);
    forall k | i <= k < j
      ensures StaysCalm(log, ws[k], ws[k + 1], t)
    {
      RunStaysCalm(c, log, first, ws, es, k, t);
    }
    CalmOn(log, ws, i, j, t);
  }

  // ----- the last commit

  /** The last commit arrives at the simple definition, over all that was consumed and all that landed. */
  lemma LastCommitTracks(log: set<Record>, w: World, assignment: set<TopicId>, t: TopicId)
    requires Calm(log, w, t) && t in assignment
    ensures Proj(Committed(w.sink.machine, assignment), t)
            == T.Simple(FirstOf(w.sink.machine.history.consumed, t), LandedOffsets(w.landed, t))
  {
    ScanProjects(w.sink.machine, assignment, t);
    T.TickFinds(Proj(w.sink.machine, t), FirstOf(w.sink.machine.history.consumed, t), LandedOffsets(w.landed, t));
  }

  /** Without discarded uploads everything consumed has landed. */
  lemma AllLanded(w: World, t: TopicId)
    requires Conserved(w) && DroppedWithin(w.sink.machine, w.revoked) && t !in w.revoked
    requires w.sink.machine.streams == map[] && w.sink.pool == [] && w.discarded == []
    ensures LandedOffsets(w.landed, t) == OffsetsIn(w.sink.machine.history.consumed, t)
  {
    forall o
      ensures o in LandedOffsets(w.landed, t) <==> o in OffsetsIn(w.sink.machine.history.consumed, t)
    {
      OnlyRevokedDropped(w.sink.machine, w.revoked, t, o);
      LandedIn(w.landed, t, o);
      OccursIn(w.sink.machine.history.consumed, t, o);
      assert ActiveTimes(w.sink.machine, t, o) == 0;
    }
  }

  /** The log has a record at every offset between two offsets of a partition. */
  predicate Contiguous(log: set<Record>, t: TopicId, from: int, to: int) {
    forall o | from <= o <= to :: InLog(log, t, o)
  }

  /** A set that holds the ends of a range reaches to its end exactly when it leaves nothing out, and exactly
      when nothing of it lies above its first gap. */
  lemma GapIfFull(f: int, offsets: set<int>, position: int)
    requires f in offsets && position - 1 in offsets && forall o | o in offsets :: f <= o < position
    ensures var gap := T.FirstGap(f, offsets);
            && (gap == position <==> forall o | f <= o < position :: o in offsets)
            && (gap == position <==> T.From(offsets, gap + 1) == {})
  {
    var gap := T.FirstGap(f, offsets);
    assert position !in offsets;
    if forall o | f <= o < position :: o in offsets {
      T.FirstGapUnique(f, offsets, position);
    }
    if gap < position {
      assert position - 1 in T.From(offsets, gap + 1);
    }
  }

  /** What was consumed in order is the part of the log between the ends. */
  lemma ConsumedIsLog(log: set<Record>, consumed: seq<Record>, t: TopicId, position: int)
    requires InOrder(log, consumed, t, position)
    ensures var f, offsets := FirstOf(consumed, t).value, OffsetsIn(consumed, t);
            && f in offsets && position - 1 in offsets
            && forall o :: o in offsets <==> f <= o < position && InLog(log, t, o)
  {
    forall o
      ensures Occurrences(consumed, t, o) > 0 <==> o in OffsetsIn(consumed, t)
    {
      OccursIn(consumed, t, o);
    }
  }

  /** The first gap among the consumed offsets comes after the last of them exactly when the log is contiguous. */
  lemma GapIfContiguous(log: set<Record>, consumed: seq<Record>, t: TopicId, position: int)
    requires InOrder(log, consumed, t, position)
    ensures var f, offsets := FirstOf(consumed, t).value, OffsetsIn(consumed, t);
            && (T.FirstGap(f, offsets) == position <==> Contiguous(log, t, f, position - 1))
            && (T.From(offsets, T.FirstGap(f, offsets) + 1) == {} <==> Contiguous(log, t, f, position - 1))
  {
    var f, offsets := FirstOf(consumed, t).value, OffsetsIn(consumed, t);
    ConsumedIsLog(log, consumed, t, position);
    GapIfFull(f, offsets, position);
    assert Contiguous(log, t, f, position - 1) <==> forall o | f <= o < position :: o in offsets;
  }

  /** What the last commit should leave of a partition. */
  ghost predicate LeftBy(log: set<Record>, consumed: seq<Record>, m: Machine, t: TopicId) {
    if LastOf(consumed, t).None? then t !in m.watermark && UploadedOf(m.uploaded, t) == {}
    else
      var f, last := FirstOf(consumed, t).value, LastOf(consumed, t).value;
      && t in m.watermark
      && m.watermark[t] == T.FirstGap(f, OffsetsIn(consumed, t))
      && (m.watermark[t] == last + 1 <==> Contiguous(log, t, f, last))
      && (UploadedOf(m.uploaded, t) == {} <==> Contiguous(log, t, f, last))
  }

  /** Graceful shutdown leaves nothing behind: when the last commit is reached and no drained upload failed,
      there are no streams, no files, no outstanding uploads, and the counter is zero. A partition kept since
      the program started is committed up to the least offset, from its first one, that was not consumed;
      and that is its last consumed offset plus one, with no uploaded offset left over, exactly when its log
      is contiguous. */
  lemma GracefulShutdown(c: Config, log: set<Record>, first: map<TopicId, int>, ws: seq<World>, es: seq<Event>,
                         i: nat, j: nat, assignment: set<TopicId>, t: TopicId)
    requires IsRun(c, log, first, ws, es) && i <= j < |es| && es[j] == FinalTurn(assignment)
    requires Starts(es, i) && t in assignment && forall k | i <= k < j :: Keeps(ws[k], es[k], t)
    requires ws[j].discarded == []
    ensures var m, consumed := ws[j + 1].sink.machine, ws[j].sink.machine.history.consumed;
            && m.streams == map[] && m.registry.files == map[] && ws[j + 1].sink.pool == [] && m.inFlight == 0
            && LeftBy(log, consumed, m, t)
  {
    AtLastTurn(c, log, first, ws, es, i, j, assignment, t);
    NoFiles(ws[j].sink.machine);
    LastTurn(log, ws[j], assignment, t);
  }

  /** The world before the last commit, for a partition that was kept. */
  lemma AtLastTurn(c: Config, log: set<Record>, first: map<TopicId, int>, ws: seq<World>, es: seq<Event>,
                   i: nat, j: nat, assignment: set<TopicId>, t: TopicId)
    requires IsRun(c, log, first, ws, es) && i <= j < |es| && es[j] == FinalTurn(assignment)
    requires Starts(es, i) && forall k | i <= k < j :: Keeps(ws[k], es[k], t)
    ensures var w := ws[j];
            && w.sink.phase.Draining? && w.sink.pool == [] && w.sink.machine.streams == map[]
            && w.sink.machine.inFlight == |w.discarded| && FilesMatch(w.sink.machine)
            && Conserved(w) && DroppedWithin(w.sink.machine, w.revoked) && Calm(log, w, t)
    ensures ws[j + 1].sink.machine == Committed(ws[j].sink.machine, assignment) && ws[j + 1].sink.pool == []
  {
    ReachableBooked(c, log, first, ws, es, j);
    ReachableNothingActive(c, log, first, ws, es, j);
    RunCalm(c, log, first, ws, es, i, j, t);
  }

  lemma NoFiles(m: Machine)
    requires FilesMatch(m) && m.streams == map[]
    ensures m.registry.files == map[]
  {
    assert forall id :: id !in m.registry.files;
  }

  lemma LastTurn(log: set<Record>, w: World, assignment: set<TopicId>, t: TopicId)
    requires Conserved(w) && DroppedWithin(w.sink.machine, w.revoked) && Calm(log, w, t) && t in assignment
    requires w.sink.machine.streams == map[] && w.sink.pool == [] && w.discarded == []
    ensures LeftBy(log, w.sink.machine.history.consumed, Committed(w.sink.machine, assignment), t)
  {
    var consumed, m := w.sink.machine.history.consumed, Committed(w.sink.machine, assignment);
    AllLanded(w, t);
    LastCommitTracks(log, w, assignment, t);
    if NeverConsumed(consumed, t) {
      NothingLands(w, t);
    } else {
      SimpleLeaves(log, consumed, m, t, w.position[t]);
    }
  }

  lemma SimpleLeaves(log: set<Record>, consumed: seq<Record>, m: Machine, t: TopicId, position: int)
    requires InOrder(log, consumed, t, position)
    requires Proj(m, t) == T.Simple(FirstOf(consumed, t), OffsetsIn(consumed, t))
    ensures LeftBy(log, consumed, m, t)
  {
    GapIfContiguous(log, consumed, t, position);
  }

  // ----- discarded uploads

  /** A commit passes an offset from the watermark on exactly when all offsets up to it are marked as uploaded. */
  lemma CommitPasses(m: Machine, assignment: set<TopicId>, t: TopicId, offset: int)
    requires t in assignment && t in m.watermark
    ensures var m' := Committed(m, assignment);
            && t in m'.watermark
            && (m'.watermark[t] > offset <==>
                  forall o | m.watermark[t] <= o <= offset :: o in UploadedOf(m.uploaded, t))
  {
    ScanProjects(m, assignment, t);
    var gap := Reach(m, t);
    if gap <= offset {
      assert gap !in UploadedOf(m.uploaded, t);
    }
  }

  /** The last commit does not pass any offset of a discarded upload, when the partition was kept since the
      program started. */
  lemma LastCommitStopsAtDiscarded(c: Config, log: set<Record>, first: map<TopicId, int>, ws: seq<World>,
                                   es: seq<Event>, i: nat, j: nat, assignment: set<TopicId>, t: TopicId,
                                   u: ToUpload, offset: int)
    requires IsRun(c, log, first, ws, es) && i <= j < |es| && es[j] == FinalTurn(assignment)
    requires Starts(es, i) && t in assignment && forall k | i <= k < j :: Keeps(ws[k], es[k], t)
    requires u in ws[j].discarded && offset in Listed(u.file.offsetsConsumed, t)
    ensures var m, tpl := ws[j + 1].sink.machine, CommitListOf(ws[j].sink.machine, assignment);
            t in m.watermark && m.watermark[t] <= offset && (t in tpl ==> tpl[t] <= offset)
  {
    AtLastTurn(c, log, first, ws, es, i, j, assignment, t);
    StopsAtDiscarded(log, ws[j], assignment, t, u, offset);
  }

  lemma StopsAtDiscarded(log: set<Record>, w: World, assignment: set<TopicId>, t: TopicId, u: ToUpload, offset: int)
    requires Conserved(w) && Calm(log, w, t) && t in assignment
    requires u in w.discarded && offset in Listed(u.file.offsetsConsumed, t)
    ensures var m, tpl := Committed(w.sink.machine, assignment), CommitListOf(w.sink.machine, assignment);
            t in m.watermark && m.watermark[t] <= offset && (t in tpl ==> tpl[t] <= offset)
  {
    var consumed := w.sink.machine.history.consumed;
    var k :| 0 <= k < |w.discarded| && w.discarded[k] == u;
    SeqSumWithout(w.discarded, k, InUpload(t, offset));
    assert SeqSum(w.discarded, InUpload(t, offset)) > 0;
    assert Occurrences(consumed, t, offset) > 0;
    LandedIn(w.landed, t, offset);
    LastCommitTracks(log, w, assignment, t);
    assert offset !in LandedOffsets(w.landed, t);
    var m := Committed(w.sink.machine, assignment);
    assert Proj(m, t).wm.Some? && FirstOf(consumed, t).value <= offset;
  }

  /** Whatever the rebalances before it: a record whose offset a discarded upload lists is delivered by another
      upload if the last commit passes it. */
  lemma PassedDiscardsAreDelivered(c: Config, log: set<Record>, first: map<TopicId, int>, ws: seq<World>,
                                   es: seq<Event>, j: nat, assignment: set<TopicId>, u: ToUpload, r: Record)
    requires OneRecordAnOffset(log) && IsRun(c, log, first, ws, es) && j < |es| && es[j] == FinalTurn(assignment)
    requires u in ws[j].discarded && r in log && r.offset in Listed(u.file.offsetsConsumed, r.Tid())
    requires r.Tid() in first && first[r.Tid()] <= r.offset
    ensures var tpl := CommitListOf(ws[j].sink.machine, assignment);
            r.Tid() in tpl && r.offset < tpl[r.Tid()] ==> Delivered(c, ws[j].store, r)
  {
    AtLeastOnce.AtLeastOnce(c, log, first, ws, es, j + 1, r);
    var tpl := CommitListOf(ws[j].sink.machine, assignment);
    if r.Tid() in tpl {
      assert ws[j + 1].sink == LastCommit(ws[j].sink, assignment);
      assert |tpl| > 0;
      assert tpl in ws[j + 1].sink.sent;
    }
  }

  predicate AllIn(from: int, to: int, offsets: set<int>) {
    forall o | from <= o <= to :: o in offsets
  }

  /** In every run: the last commit, if it finds the partition assigned, passes an offset - of a discarded upload or
      not - exactly when the offset lies below the one the partition is committed from, which is the first one
      delivered since the last reset, or all offsets from that one up to it have landed since then. */
  lemma LastCommitPasses(c: Config, log: set<Record>, first: map<TopicId, int>, ws: seq<World>, es: seq<Event>,
                         i: nat, j: nat, r: nat, assignment: set<TopicId>, t: TopicId, offset: int)
    requires Stretch(c, log, first, ws, es, i, j) && i < j && Starts(es, i) && LastReset(ws, es, i, j, r, t)
    requires es[j - 1] == FinalTurn(assignment) && t in assignment
    ensures AllFit(ws, es, r, j)
    ensures var m, start, landed := ws[j].sink.machine, StartOf(c, ws, es, r, j, t), LandedSince(ws, es, r, j, t);
            && (t in m.watermark <==> start.Some?)
            && (start.Some? ==>
                  (m.watermark[t] > offset <==>
                     offset < start.value || AllIn(start.value, offset, landed)))
  {
    StartUntracked(c, log, first, ws, es, i, t);
    IncrementalCommit(c, log, first, ws, es, i, j, r, t);
    SimplePasses(ws[j].sink.machine, t, StartOf(c, ws, es, r, j, t), LandedSince(ws, es, r, j, t), offset);
  }

  lemma SimplePasses(m: Machine, t: TopicId, start: Option<int>, landed: set<int>, offset: int)
    requires Proj(m, t) == T.Simple(start, landed)
    ensures t in m.watermark <==> start.Some?
    ensures start.Some? ==>
              (m.watermark[t] > offset <==>
                 offset < start.value || AllIn(start.value, offset, landed))
  {
    assert Proj(m, t).wm.Some? <==> t in m.watermark;
    if start.Some? {
      GapPasses(start.value, landed, offset);
    }
  }

  lemma GapPasses(start: int, full: set<int>, offset: int)
    ensures T.FirstGap(start, full) > offset <==>
              offset < start || AllIn(start, offset, full)
  {
    var gap := T.FirstGap(start, full);
    assert gap !in full;
  }

  lemma StartUntracked(c: Config, log: set<Record>, first: map<TopicId, int>, ws: seq<World>, es: seq<Event>, i: nat,
                       t: TopicId)
    requires IsRun(c, log, first, ws, es) && i <= |es| && Starts(es, i)
    ensures Untracked(ws[i].sink.machine, t)
  {
  }
}
