/** Runs of the sink, with its own router and serializer, in which it does not meet a promise: a last commit that
    passes an offset of a discarded upload, a stream of skipped records that ends the run at shutdown, and a gap in
    the offsets that stops the commits. */
module Witnesses {
  import opened DataModel
  import opened JsonSerializer
  import opened Router
  import opened Config
  import opened Settings
  import opened FileRegistry
  import opened Ledger
  import opened MachineModel
  import opened SinkModel
  import opened World
  import Track

  const TOPIC: Bytes := [0x61]
  const DATA: Bytes := [0x31]

  /** A record with the payload `1`. */
  function R(offset: int): Record { Record(TOPIC, 0, offset, Some(DATA), None) }

  /** A record with a null payload, of another partition. */
  const NULL := Record(TOPIC, 1, 0, None, None)

  const T0 := TopicId(TOPIC, 0)
  const T1 := TopicId(TOPIC, 1)
  const ID := StreamIdOf(TopicVersion, R(0))
  const LINE := Line(DATA, [])

  /** A log with a gap. */
  const LOG := {R(0), R(2), NULL}
  const FIRST := map[T0 := 0, T1 := 0]
  const ENV := Env(0, [], NoFault, {})

  /** One topic of JSON strings; one byte fills a file; two uploads at a time, each retried once. */
  const SETTINGS := Settings(map[TOPIC := TopicConfig(JsonStringDecoder, TopicVersion)],
                             (p: Path) => Stamp([], [], []), 0, 2, 1, 1)
  const C := SETTINGS.Configure()

  /** What the settings make of the records. */
  ghost predicate Configured(c: Config) {
    && (forall o :: c.route(R(o)) == Some(ID) && c.line(R(o)) == Ok(Some(LINE)))
    && c.route(NULL) == Some(ID) && c.line(NULL) == Ok(None)
    && c.targetFileSizeB == 1 && c.maxConcurrentUploads == 2 && c.maxUploadsRetry == 1
  }

  lemma IsConfigured()
    ensures Configured(C)
  {
    forall o
      ensures C.route(R(o)) == Some(ID) && C.line(R(o)) == Ok(Some(LINE))
    {
      assert R(o).HeaderList() == [] == R(0).HeaderList();
      assert Components(TopicVersion, R(o)) == Components(TopicVersion, R(0));
    }
    assert NULL.HeaderList() == R(0).HeaderList();
    assert Components(TopicVersion, NULL) == Components(TopicVersion, R(0));
  }

  // ----- single requests

  /** No stream is active. */
  predicate Idle(m: Machine) {
    m.streams == map[] && m.registry.files == map[]
  }

  /** An upload, with all its retries, of one record. */
  predicate IsUpload(u: ToUpload, offset: int) {
    u.retries == 1 && u.file.offsetsConsumed == map[T0 := [offset]]
  }

  /** Consuming a record seals its file at once. */
  lemma SealedAtOnce(c: Config, m: Machine, offset: int) returns (m': Machine, u: ToUpload)
    requires Configured(c) && Idle(m) && m.inFlight < 2
    ensures HandleProcessRecord(c, m, R(offset), ENV) == (m', [RecordConsumed, ReadyForUpload(u)])
    ensures Idle(m') && m'.inFlight == m.inFlight + 1 && m'.uploaded == m.uploaded
    ensures m'.watermark == if T0 in m.watermark then m.watermark else m.watermark[T0 := offset]
    ensures IsUpload(u, offset)
  {
    var os: Offsets := map[T0 := [offset]];
    assert Listed(map[], T0) + [offset] == [offset];
    assert R(offset).Tid() == T0 && Pushed(map[], T0, offset) == os;
    var m1 := Noted(m, R(offset), ID, 0);
    assert m1.streams == map[ID := StreamState(0, 1, os, 0)];
    var m2 := Grown(m1, ID, |LINE|);
    var m3 := m2.(registry := Written(m2.registry, ID, LINE));
    assert |LINE| > 0 && ShouldSeal(c, m3, ID);
    var sealed := SealStream(c, m3, ID, ENV);
    assert m3.registry.files - {ID} == map[] && m3.streams - {ID} == map[];
    m', u := sealed.0, sealed.1.toUpload;
  }

  lemma RevokedIdle(m: Machine)
    requires Idle(m)
    ensures var m' := AfterRevocations(m, [{T0}], ENV);
            Idle(m') && m'.inFlight == m.inFlight && m'.watermark == m.watermark - {T0}
  {
    assert [{T0}][..0] == [];
  }

  lemma Dispatched(s: Sink, u: ToUpload)
    requires s.phase.Running?
    ensures Dispatch(s, [RecordConsumed, ReadyForUpload(u)]) == s.(pool := s.pool + [u])
    ensures Dispatch(s, [DrainAndShutdown]) == s.(phase := Draining)
  {
    var rs := [RecordConsumed, ReadyForUpload(u)];
    assert rs[..1] == [RecordConsumed];
    assert [RecordConsumed][..0] == [] && [DrainAndShutdown][..0] == [];
    assert Dispatch(s, []) == s;
    assert Dispatch(s, [RecordConsumed]) == s;
    assert Dispatch(s, rs) == Respond(s, ReadyForUpload(u));
  }

  // ----- single events

  /** A turn that is delivered a record, after at most one revocation of the partition. */
  lemma RecordTurn(c: Config, s: Sink, pending: seq<set<TopicId>>, offset: int) returns (u: ToUpload)
    requires Configured(c) && s.phase.Running? && Idle(s.machine) && s.machine.inFlight < 2
    requires pending == [] || pending == [{T0}]
    ensures var s' := Turn(c, s, pending, Received(R(offset)), ENV);
            && s'.phase.Running? && Idle(s'.machine) && s'.machine.inFlight == s.machine.inFlight + 1
            && s'.pool == s.pool + [u] && IsUpload(u, offset)
            && T0 in s'.machine.watermark
            && s'.machine.watermark[T0]
               == (if pending == [] && T0 in s.machine.watermark then s.machine.watermark[T0] else offset)
            && (pending == [] ==> s'.machine.uploaded == s.machine.uploaded)
  {
    if pending != [] {
      RevokedIdle(s.machine);
    }
    var m1 := AfterRevocations(s.machine, pending, ENV);
    var m', u' := SealedAtOnce(c, m1, offset);
    u := u';
    Dispatched(s.(machine := m'), u);
  }

  lemma SignalTurn(c: Config, s: Sink)
    requires s.phase.Running? && Idle(s.machine)
    ensures Turn(c, s, [], Terminated, ENV) == s.(phase := Draining)
  {
    assert AfterRevocations(s.machine, [], ENV) == s.machine;
    assert SealAll(c, s.machine, [], ENV) == (s.machine, []);
    assert [] + [DrainAndShutdown] == [DrainAndShutdown];
    assert Handle(c, s.machine, ShutdownSignal, ENV) == (s.machine, [DrainAndShutdown]);
    assert [DrainAndShutdown][..0] == [];
    assert Dispatch(s, []) == s;
    assert Dispatch(s, [DrainAndShutdown]) == Respond(s, DrainAndShutdown);
    assert s.(machine := s.machine) == s;
  }

  /** The partition is owned and the next record to be delivered is at the given offset. */
  predicate Expects(w: World, offset: int) {
    && T0 in w.owned && T0 in w.position && T0 in w.committed && w.committed[T0] == 0
    && w.sink.phase.Running? && Idle(w.sink.machine) && w.discarded == []
    && (w.pending == [] || w.pending == [{T0}])
    && NextRecord(LOG, T0, w.position[T0], R(offset))
  }

  lemma CanReceive(w: World, offset: int)
    requires Expects(w, offset)
    ensures Enabled(LOG, w, LoopTurn(Received(R(offset)), ENV))
  {
    assert R(offset).Tid() == T0;
  }

  lemma RecordEvent(c: Config, w: World, offset: int) returns (u: ToUpload, w': World)
    requires Configured(c) && Expects(w, offset) && w.sink.machine.inFlight < 2
    ensures Enabled(LOG, w, LoopTurn(Received(R(offset)), ENV)) && w' == Next(c, LOG, w, LoopTurn(Received(R(offset)), ENV))
    ensures w'.sink.phase.Running? && Idle(w'.sink.machine) && w'.sink.machine.inFlight == w.sink.machine.inFlight + 1
    ensures w'.sink.pool == w.sink.pool + [u] && IsUpload(u, offset)
    ensures T0 in w'.sink.machine.watermark
    ensures w'.sink.machine.watermark[T0]
            == if w.pending == [] && T0 in w.sink.machine.watermark then w.sink.machine.watermark[T0] else offset
    ensures w.pending == [] ==> w'.sink.machine.uploaded == w.sink.machine.uploaded
    ensures w' == w.(sink := w'.sink, pending := [], position := w.position[T0 := offset + 1])
  {
    CanReceive(w, offset);
    u := RecordTurn(c, w.sink, w.pending, offset);
    w' := Next(c, LOG, w, LoopTurn(Received(R(offset)), ENV));
    ReceivedNext(c, LOG, w, R(offset));
  }

  lemma ReceivedNext(c: Config, log: set<Record>, w: World, r: Record)
    requires Enabled(log, w, LoopTurn(Received(r), ENV))
    ensures Next(c, log, w, LoopTurn(Received(r), ENV))
            == w.(sink := Turn(c, w.sink, w.pending, Received(r), ENV), pending := [],
                  position := w.position[r.Tid() := r.offset + 1])
  {
  }

  /** A run goes on by an enabled event. */
  lemma RunExtends(c: Config, log: set<Record>, first: map<TopicId, int>, ws: seq<World>, es: seq<Event>, e: Event,
                   w: World)
    requires IsRun(c, log, first, ws, es) && Sound(c, log, first, ws[|es|], e)
    requires Enabled(log, ws[|es|], e) && w == Next(c, log, ws[|es|], e)
    ensures IsRun(c, log, first, ws + [w], es + [e])
  {
    var ws', es' := ws + [w], es + [e];
    forall i | 0 <= i < |es'|
      ensures Enabled(log, ws'[i], es'[i]) && Sound(c, log, first, ws'[i], es'[i])
      ensures ws'[i + 1] == Next(c, log, ws'[i], es'[i])
    {
      if i < |es| {
        assert ws'[i] == ws[i] && es'[i] == es[i] && ws'[i + 1] == ws[i + 1];
      }
    }
  }

  lemma Extend(c: Config, ws: seq<World>, es: seq<Event>, e: Event, w: World) returns (ws': seq<World>, es': seq<Event>)
    requires IsRun(c, LOG, FIRST, ws, es) && !e.Others?
    requires Enabled(LOG, ws[|es|], e) && w == Next(c, LOG, ws[|es|], e)
    ensures IsRun(c, LOG, FIRST, ws', es') && |es'| == |es| + 1 && ws'[|es'|] == w
  {
    RunExtends(c, LOG, FIRST, ws, es, e, w);
    ws', es' := ws + [w], es + [e];
  }

  /** The run in which the partition has been assigned. */
  lemma Assigned(c: Config) returns (ws: seq<World>, es: seq<Event>)
    ensures IsRun(c, LOG, FIRST, ws, es) && |es| == 1 && ws[1] == Init(FIRST).(owned := {T0}, position := map[T0 := 0])
  {
    var w0 := Init(FIRST);
    var w1 := Next(c, LOG, w0, Assign(T0));
    assert w1 == w0.(owned := {T0}, position := map[T0 := 0]);
    ws, es := [w0, w1], [Assign(T0)];
  }

  // ----- the last commit passes an offset of a discarded upload

  /** The partition is revoked and assigned again. */
  lemma RebalanceEvents(c: Config, w: World) returns (w1: World, w2: World)
    requires w.owned == {T0} && w.sink.phase.Running? && w.pending == [] && Idle(w.sink.machine) && w.discarded == []
    requires T0 in w.committed && w.committed[T0] == 0
    ensures Enabled(LOG, w, Revoke({T0})) && w1 == Next(c, LOG, w, Revoke({T0}))
    ensures Enabled(LOG, w1, Assign(T0)) && w2 == Next(c, LOG, w1, Assign(T0))
    ensures Expects(w2, 0) && w2.sink == w.sink && w2.pending == [{T0}]
  {
    w1 := Next(c, LOG, w, Revoke({T0}));
    w2 := Next(c, LOG, w1, Assign(T0));
    assert [] + [{T0}] == [{T0}];
  }

  lemma SignalEvent(c: Config, w: World) returns (w': World)
    requires w.sink.phase.Running? && w.pending == [] && Idle(w.sink.machine)
    ensures Enabled(LOG, w, LoopTurn(Terminated, ENV)) && w' == Next(c, LOG, w, LoopTurn(Terminated, ENV))
    ensures w' == w.(sink := w.sink.(phase := Draining))
  {
    SignalTurn(c, w.sink);
    w' := Next(c, LOG, w, LoopTurn(Terminated, ENV));
  }

  /** The shutdown: the second upload succeeds, the first one fails and is discarded. */
  lemma DrainEvents(c: Config, w: World, u1: ToUpload, u2: ToUpload) returns (w1: World, w2: World)
    requires w.sink.phase.Draining? && w.discarded == []
    requires w.sink.pool == [u1, u2] && IsUpload(u1, 0) && IsUpload(u2, 0)
    ensures Enabled(LOG, w, DrainUpload(1, true)) && w1 == Next(c, LOG, w, DrainUpload(1, true))
    ensures Enabled(LOG, w1, DrainUpload(0, false)) && w2 == Next(c, LOG, w1, DrainUpload(0, false))
    ensures w2.sink.phase.Draining? && w2.sink.pool == [] && w2.discarded == [u1]
    ensures w2.sink.machine.watermark == w.sink.machine.watermark
    ensures 0 in UploadedOf(w2.sink.machine.uploaded, T0)
  {
    w1 := Next(c, LOG, w, DrainUpload(1, true));
    assert Without([u1, u2], 1) == [u1] && Without([u1], 0) == [];
    assert 0 in AsSet([0]) by { assert [0][0] == 0; }
    assert 0 in UploadedOf(w1.sink.machine.uploaded, T0);
    w2 := Next(c, LOG, w1, DrainUpload(0, false));
  }

  lemma Passes(m: Machine)
    requires T0 in m.watermark && m.watermark[T0] == 0 && 0 in UploadedOf(m.uploaded, T0)
    ensures var tpl := CommitListOf(m, {T0}); T0 in tpl && tpl[T0] > 0
  {
  }

  /** The run up to the second assignment. */
  lemma Rebalanced(c: Config) returns (ws: seq<World>, es: seq<Event>, u: ToUpload)
    requires Configured(c)
    ensures IsRun(c, LOG, FIRST, ws, es) && |es| == 4
    ensures Expects(ws[4], 0) && ws[4].pending == [{T0}] && ws[4].sink.pool == [u] && IsUpload(u, 0)
    ensures ws[4].sink.machine.inFlight == 1
  {
    ws, es := Assigned(c);
    var w2, w3, w4;
    u, w2 := RecordEvent(c, ws[1], 0);
    ws, es := Extend(c, ws, es, LoopTurn(Received(R(0)), ENV), w2);
    w3, w4 := RebalanceEvents(c, w2);
    ws, es := Extend(c, ws, es, Revoke({T0}), w3);
    ws, es := Extend(c, ws, es, Assign(T0), w4);
  }

  /** The run up to the second delivery. */
  lemma DeliveredTwice(c: Config) returns (ws: seq<World>, es: seq<Event>, u1: ToUpload, u2: ToUpload)
    requires Configured(c)
    ensures IsRun(c, LOG, FIRST, ws, es) && |es| == 5
    ensures var w := ws[5];
            && w.sink.phase.Running? && w.pending == [] && Idle(w.sink.machine) && w.discarded == []
            && w.sink.pool == [u1, u2] && IsUpload(u1, 0) && IsUpload(u2, 0)
            && T0 in w.sink.machine.watermark && w.sink.machine.watermark[T0] == 0
  {
    var w5;
    ws, es, u1 := Rebalanced(c);
    u2, w5 := RecordEvent(c, ws[4], 0);
    ws, es := Extend(c, ws, es, LoopTurn(Received(R(0)), ENV), w5);
  }

  /** A partition is revoked and assigned again, its record is delivered twice, and in the drain the first upload
      fails while the second succeeds: the last commit passes offset 0, which the discarded upload lists. */
  lemma DiscardedOffsetPassed() returns (ws: seq<World>, es: seq<Event>, u: ToUpload)
    ensures IsRun(C, LOG, FIRST, ws, es) && |es| == 8
    ensures Enabled(LOG, ws[8], FinalTurn({T0}))
    ensures u in ws[8].discarded && 0 in Listed(u.file.offsetsConsumed, T0)
    ensures var tpl := CommitListOf(ws[8].sink.machine, {T0}); T0 in tpl && tpl[T0] > 0
  {
    IsConfigured();
    var u2;
    ws, es, u, u2 := DeliveredTwice(C);
    var w1 := SignalEvent(C, ws[5]);
    var w2, w3 := DrainEvents(C, w1, u, u2);
    ws, es := Extend(C, ws, es, LoopTurn(Terminated, ENV), w1);
    ws, es := Extend(C, ws, es, DrainUpload(1, true), w2);
    ws, es := Extend(C, ws, es, DrainUpload(0, false), w3);
    Passes(w3.sink.machine);
  }

  // ----- a gap stops the commits

  /** An upload that succeeds in the loop. */
  lemma SuccessEvent(c: Config, w: World, i: nat, offset: int) returns (w': World)
    requires w.sink.phase.Running? && w.pending == [] && Idle(w.sink.machine)
    requires i < |w.sink.pool| && IsUpload(w.sink.pool[i], offset)
    ensures Enabled(LOG, w, LoopTurn(UploadDone(i, true), ENV)) && w' == Next(c, LOG, w, LoopTurn(UploadDone(i, true), ENV))
    ensures w'.sink.phase.Running? && w'.pending == [] && Idle(w'.sink.machine)
    ensures w'.sink.pool == Without(w.sink.pool, i)
    ensures w'.sink.machine.watermark == w.sink.machine.watermark
    ensures UploadedOf(w'.sink.machine.uploaded, T0) == UploadedOf(w.sink.machine.uploaded, T0) + {offset}
    ensures T0 in w'.sink.machine.uploaded
  {
    var u := w.sink.pool[i];
    w' := Next(c, LOG, w, LoopTurn(UploadDone(i, true), ENV));
    assert AsSet([offset]) == {offset};
    var s1 := w.sink.(pool := Without(w.sink.pool, i));
    var m := HandleUploadCompletion(w.sink.machine, Success(u.file.path, u.file.offsetsConsumed)).0;
    var rs := [DeleteFile(u.file.path)];
    assert rs[..0] == [] && Dispatch(s1.(machine := m), []) == s1.(machine := m);
    assert Dispatch(s1.(machine := m), rs) == Respond(s1.(machine := m), rs[0]);
  }

  lemma GapInLog()
    ensures NextRecord(LOG, T0, 0, R(0)) && NextRecord(LOG, T0, 1, R(2))
  {
  }

  /** The run in which both records have been consumed. */
  lemma GapConsumed(c: Config) returns (ws: seq<World>, es: seq<Event>, u1: ToUpload, u2: ToUpload)
    requires Configured(c)
    ensures IsRun(c, LOG, FIRST, ws, es) && |es| == 3
    ensures var w := ws[3];
            && w.sink.phase.Running? && w.pending == [] && Idle(w.sink.machine)
            && w.sink.pool == [u1, u2] && IsUpload(u1, 0) && IsUpload(u2, 2)
            && T0 in w.sink.machine.watermark && w.sink.machine.watermark[T0] == 0 && w.sink.machine.uploaded == map[]
  {
    GapInLog();
    ws, es := Assigned(c);
    var w2, w3;
    u1, w2 := RecordEvent(c, ws[1], 0);
    ws, es := Extend(c, ws, es, LoopTurn(Received(R(0)), ENV), w2);
    u2, w3 := RecordEvent(c, w2, 2);
    ws, es := Extend(c, ws, es, LoopTurn(Received(R(2)), ENV), w3);
  }

  lemma ReachesOne(m: Machine)
    requires T0 in m.watermark && m.watermark[T0] == 0 && T0 in m.uploaded && m.uploaded[T0] == {0, 2}
    ensures T0 in CommitListOf(m, {T0}) && CommitListOf(m, {T0})[T0] == 1
  {
    Track.FirstGapUnique(0, {0, 2}, 1);
  }

  /** Both records of a log with the offsets 0 and 2 are consumed and stored, nothing is left to do, and the commit
      reaches offset 1 only. */
  lemma GapStopsCommits() returns (ws: seq<World>, es: seq<Event>)
    ensures IsRun(C, LOG, FIRST, ws, es) && |es| == 5
    ensures NextRecord(LOG, T0, 0, R(0)) && NextRecord(LOG, T0, 1, R(2))
    ensures var w := ws[5];
            && w.sink.phase.Running? && Idle(w.sink.machine) && w.sink.pool == []
            && UploadedOf(w.sink.machine.uploaded, T0) == {0, 2}
            && T0 in CommitListOf(w.sink.machine, {T0}) && CommitListOf(w.sink.machine, {T0})[T0] == 1
  {
    IsConfigured();
    GapInLog();
    var u1, u2;
    ws, es, u1, u2 := GapConsumed(C);
    assert Without([u1, u2], 1) == [u1] && Without([u1], 0) == [];
    var w4 := SuccessEvent(C, ws[3], 1, 2);
    var w5 := SuccessEvent(C, w4, 0, 0);
    ws, es := Extend(C, ws, es, LoopTurn(UploadDone(1, true), ENV), w4);
    ws, es := Extend(C, ws, es, LoopTurn(UploadDone(0, true), ENV), w5);
    assert {} + {2} + {0} == {0, 2};
    ReachesOne(w5.sink.machine);
  }

  // ----- a stream of skipped records cannot be sealed

  lemma SkippedTurn(c: Config, s: Sink)
    requires Configured(c) && s.phase.Running? && Idle(s.machine)
    ensures var s' := Turn(c, s, [], Received(NULL), ENV);
            && s'.phase.Running? && s'.machine.streams.Keys == {ID} && ID !in s'.machine.registry.files
  {
    assert Dispatch(s, []) == s;
    var m := Noted(s.machine, NULL, ID, 0);
    assert Dispatch(s.(machine := m), []) == s.(machine := m);
  }

  lemma SkippedSignal(c: Config, s: Sink)
    requires s.phase.Running? && s.machine.streams.Keys == {ID} && ID !in s.machine.registry.files
    ensures Turn(c, s, [], Terminated, Env(0, [ID], NoFault, {})).phase.Stopped?
  {
    var env := Env(0, [ID], NoFault, {});
    assert [ID][..0] == [];
    assert SealAll(c, s.machine, [], env) == (s.machine, []);
    var (m, r) := SealStream(c, s.machine, ID, env);
    assert r.Fatal?;
    assert SealAll(c, s.machine, [ID], env) == (m, [] + [r]);
    var rs := [] + [r] + [DrainAndShutdown];
    assert rs[..1] == [r] && [r][..0] == [];
    var s1 := s.(machine := m);
    assert Dispatch(s1, []) == s1 && Dispatch(s1, [r]) == Respond(s1, r);
  }

  /** A stream that holds one record with a null payload: the shutdown signal ends the run without a drain. */
  lemma SkippedStreamEndsRun() returns (ws: seq<World>, es: seq<Event>, env: Env)
    ensures IsRun(C, LOG, FIRST, ws, es) && |es| == 2
    ensures ws[2].sink.phase.Running? && Enabled(LOG, ws[2], LoopTurn(Terminated, env)) && env.closeFails == {}
    ensures Next(C, LOG, ws[2], LoopTurn(Terminated, env)).sink.phase.Stopped?
  {
    IsConfigured();
    var w0 := Init(FIRST);
    var w1 := Next(C, LOG, w0, Assign(T1));
    SkippedTurn(C, w1.sink);
    var w2 := Next(C, LOG, w1, LoopTurn(Received(NULL), ENV));
    ws, es := Extend(C, [w0], [], Assign(T1), w1);
    ws, es := Extend(C, ws, es, LoopTurn(Received(NULL), ENV), w2);
    env := Env(0, [ID], NoFault, {});
    SkippedSignal(C, w2.sink);
  }
}
