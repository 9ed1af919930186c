/** The state machine as the program runs it: one object whose handlers update its maps in place. Each
    handler is proved to do what the function of the same name says. */
module StateMachine {
  import opened DataModel
  import opened JsonSerializer
  import opened Router
  import opened KeyGenerator
  import opened Config
  import opened Settings
  import opened FileRegistry
  import opened Ledger
  import opened Model = MachineModel
  import opened OrderedSet
  import Track

  /** The scan for the first gap: walks the offsets from the watermark up and stops at the first jump. */
  method OffsetToCommit(offsets: set<int>, watermark: int) returns (offsetToCommit: int)
    ensures offsetToCommit == Track.FirstGap(watermark, offsets)
  {
    var range := Ascending(Track.From(offsets, watermark));
    offsetToCommit := watermark;
    var i := 0;
    while i < |range|
      invariant 0 <= i <= |range|
      invariant offsetToCommit == watermark + i
      invariant forall k | 0 <= k < i :: range[k] < offsetToCommit
      invariant forall x | watermark <= x < offsetToCommit :: x in offsets
      invariant forall k | i <= k < |range| :: range[k] >= offsetToCommit
    {
      assert range[i] in Track.From(offsets, watermark);
      if range[i] == offsetToCommit {
        offsetToCommit := offsetToCommit + 1;
      } else {
        break;
      }
      i := i + 1;
    }
    assert i < |range| ==> range[i] > offsetToCommit;
    assert offsetToCommit !in range;
    assert offsetToCommit !in Track.From(offsets, watermark);
    Track.FirstGapUnique(watermark, offsets, offsetToCommit);
  }

  class StateMachine {
    const settings: Settings
    const buf: Buffer
    const registry: DiskFileRegistry
    const serializer: JsonSerializer

    var streams: map<StreamId, StreamState>
    var uploaded: map<TopicId, set<int>>
    var watermark: map<TopicId, int>
    var inFlight: nat
    var responses: seq<Response>
    ghost var history: History

    ghost function View(): Machine
      reads this, registry
    {
      Machine(streams, registry.View(), uploaded, watermark, inFlight, history)
    }

    constructor (settings: Settings, registry: DiskFileRegistry)
      ensures this.registry == registry && fresh(serializer) && fresh(buf) && this.settings == settings
      ensures View() == New(registry.View()) && responses == []
    {
      this.settings, this.registry := settings, registry;
      this.serializer := new JsonSerializer();
      this.buf := new Buffer();
      streams, uploaded, watermark, inFlight, responses := map[], map[], map[], 0, [];
      history := EMPTY;
    }

    method Handle(request: Request, env: Env) returns (rs: seq<Response>)
      requires Visits(env.order, streams)
      modifies this, registry, serializer, buf
      ensures (View(), rs) == Model.Handle(settings.Configure(), old(View()), request, env)
    {
      responses := [];
      match request {
        case ProcessRecord(r) => HandleProcessRecord(r, env);
        case UploadTick => HandleUploadTick(env);
        case CommitTick(assignment) => HandleCommitTick(assignment);
        case UploadCompletion(result) => HandleUploadCompletion(result);
        case FinalCommit(assignment) => HandleFinalCommit(assignment);
        case RevokePartitions(partitions) => HandleRevokePartitions(partitions, env);
        case ShutdownSignal => HandleShutdownSignal(env);
      }
      assert forall r: seq<Response> :: [] + r == r;
      rs := responses;
      responses := [];
    }

    method CloseAndUpload(id: StreamId, st: StreamState, env: Env)
      modifies this, registry
      ensures var (m, r) := Model.CloseAndUpload(settings.Configure(), old(View()), id, st, env);
              View() == m && responses == old(responses) + [r]
    {
      var closed := registry.Close(id, id in env.closeFails);
      match closed {
        case Err(e) =>
          history := LostWith(history, id);
          responses := responses + [Fatal(e)];
        case Ok(path) =>
          inFlight := inFlight + 1;
          history := SealedAs(history, id, path);
          var file := SealedFile(path, st.bytesConsumed, st.recordsConsumed, st.offsetsConsumed, st.createdAt);
          responses := responses + [ReadyForUpload(ToUpload(KeyInner(id, settings.stamp(path)), file, settings.maxUploadsRetry))];
      }
    }

    method HandleProcessRecord(r: Record, env: Env)
      modifies this, registry, serializer, buf
      ensures var (m, rs) := Model.HandleProcessRecord(settings.Configure(), old(View()), r, env);
              View() == m && responses == old(responses) + rs
    {
      if r.topic !in settings.topics {
        responses := responses + [Fatal(Configuration)];
        return;
      }
      WriteId(settings.topics[r.topic].router, r, buf);
      var id := StreamId(buf.data);
      Note(r, id, env.now);
      var serialized := serializer.Serialize(r, settings.topics[r.topic].decoder);
      match serialized {
        case Ok(Some(payload)) => Write(id, payload, env);
        case Ok(None) =>
        case Err(e) =>
          responses := responses + [Fatal(e)];
      }
    }

    /** Gets or creates the stream's state, adds the offset and, if the partition has none, a watermark. */
    method Note(r: Record, id: StreamId, now: int)
      modifies this
      ensures View() == Noted(old(View()), r, id, now) && responses == old(responses)
    {
      var t := r.Tid();
      if id !in streams {
        streams := streams[id := StreamState(0, 0, map[], now)];
      }
      var st := streams[id];
      var listed := if t in st.offsetsConsumed then st.offsetsConsumed[t] else [];
      st := st.(offsetsConsumed := st.offsetsConsumed[t := listed + [r.offset]]);
      if t !in watermark {
        watermark := watermark[t := r.offset];
      }
      st := st.(recordsConsumed := st.recordsConsumed + 1);
      streams := streams[id := st];
      history := Received(history, id, r);
    }

    /** Appends a line to the stream's file and seals the file when it has reached its size. */
    method Write(id: StreamId, payload: Bytes, env: Env)
      requires id in streams
      modifies this, registry
      ensures var (m, rs) := Appended(settings.Configure(), old(View()), id, payload, env);
              View() == m && responses == old(responses) + rs
    {
      var st := streams[id];
      st := st.(bytesConsumed := st.bytesConsumed + |payload|);
      streams := streams[id := st];
      var written := registry.WriteAll(id, payload, env.writeFault);
      if written.Err? {
        responses := responses + [Fatal(written.error)];
        return;
      }
      responses := responses + [RecordConsumed];
      if st.bytesConsumed >= settings.targetFileSizeB && inFlight < settings.maxConcurrentUploads {
        streams := streams - {id};
        CloseAndUpload(id, st, env);
      }
    }

    method HandleUploadTick(env: Env)
      requires Visits(env.order, streams)
      modifies this, registry
      ensures var (m, rs) := Model.HandleUploadTick(settings.Configure(), old(View()), env);
              View() == m && responses == old(responses) + rs
    {
      var cutOff := env.now - settings.maxActiveFileTimeoutMs;
      var capacity := if inFlight <= settings.maxConcurrentUploads then settings.maxConcurrentUploads - inFlight else 0;
      ghost var start := Scan(View(), [], 0);
      SealDormant(env, cutOff, capacity);
      TickedIs(settings.Configure(), start, env.order, env, cutOff, capacity);
    }

    /** Seals the streams created by the cut-off, in iteration order, while there is room. */
    method SealDormant(env: Env, cutOff: int, capacity: nat)
      modifies this, registry
      ensures var end := Ticked(settings.Configure(), Scan(old(View()), [], 0), env.order, env, cutOff, capacity);
              View() == end.machine && responses == old(responses) + end.responses
    {
      var taken := 0;
      ghost var so := Scan(View(), [], 0);
      ghost var start := so;
      for i := 0 to |env.order|
        invariant so == Ticked(settings.Configure(), start, env.order[..i], env, cutOff, capacity)
        invariant View() == so.machine && responses == old(responses) + so.responses && taken == so.taken
      {
        var id := env.order[i];
        assert env.order[..i + 1][..i] == env.order[..i];
        if taken < capacity && id in streams && streams[id].createdAt <= cutOff {
          var st := streams[id];
          streams := streams - {id};
          CloseAndUpload(id, st, env);
          taken := taken + 1;
        }
        so := TickOne(settings.Configure(), so, id, env, cutOff, capacity);
      }
      assert env.order[..|env.order|] == env.order;
    }

    method HandleShutdownSignal(env: Env)
      requires Visits(env.order, streams)
      modifies this, registry
      ensures var (m, rs) := Model.HandleShutdownSignal(settings.Configure(), old(View()), env);
              View() == m && responses == old(responses) + rs
    {
      ghost var m0 := View();
      for i := 0 to |env.order|
        invariant var (m, rs) := SealAll(settings.Configure(), m0, env.order[..i], env);
                  View() == m && responses == old(responses) + rs
      {
        var id := env.order[i];
        SealStep(settings.Configure(), m0, env, i);
        if id in streams {
          var st := streams[id];
          streams := streams - {id};
          CloseAndUpload(id, st, env);
        }
      }
      assert env.order[..|env.order|] == env.order;
      responses := responses + [DrainAndShutdown];
    }

    method HandleUploadCompletion(result: UploadResult)
      modifies this
      ensures var (m, rs) := Model.HandleUploadCompletion(old(View()), result);
              View() == m && responses == old(responses) + rs
    {
      match result {
        case Failure(u) =>
          var response;
          if u.retries > 0 {
            response := ReadyForUpload(u.Decrement());
          } else {
            inFlight := Decremented(inFlight);
            response := Fatal(S3Upload);
          }
          responses := responses + [response];
        case Success(path, offsets) =>
          ExtendUploaded(offsets);
          inFlight := Decremented(inFlight);
          responses := responses + [DeleteFile(path)];
      }
    }

    method ExtendUploaded(offsets: Offsets)
      modifies this`uploaded
      ensures uploaded == AddUploaded(old(uploaded), offsets)
    {
      ghost var up0 := uploaded;
      var todo := offsets.Keys;
      while todo != {}
        invariant Extended(up0, offsets, todo, uploaded)
        decreases todo
      {
        var t :| t in todo;
        ExtendOne(up0, offsets, todo, uploaded, t);
        todo := todo - {t};
        uploaded := uploaded[t := Merged(uploaded, t, offsets[t])];
      }
    }

    method HandleRevokePartitions(partitions: set<TopicId>, env: Env)
      requires Visits(env.order, streams)
      modifies this, registry
      ensures var (m, rs) := Model.HandleRevokePartitions(old(View()), partitions, env);
              View() == m && responses == old(responses) + rs
    {
      ghost var m0 := View();
      ghost var gone := RevokedStreams(m0.streams, partitions);
      RemoveRevoked(partitions, env.order);
      history := DroppedWith(history, gone);
      ForgetPartitions(partitions);
    }

    /** Takes out the streams whose partitions are all revoked, and their files. */
    method RemoveRevoked(partitions: set<TopicId>, order: seq<StreamId>)
      requires Visits(order, streams)
      modifies this`streams, this`responses, registry
      ensures var gone := RevokedStreams(old(streams), partitions);
              && streams == old(streams) - gone
              && registry.View() == Forgotten(old(registry.View()), gone)
              && responses == old(responses) + Deletions(old(registry.files), gone, order)
    {
      ghost var so := Sweep(streams, registry.View(), []);
      ghost var start := so;
      for i := 0 to |order|
        invariant so == Swept(start, partitions, order[..i])
        invariant streams == so.streams && registry.View() == so.registry
        invariant responses == old(responses) + so.deletions
      {
        var id := order[i];
        assert order[..i + 1][..i] == order[..i];
        if id in streams && streams[id].offsetsConsumed.Keys <= partitions {
          streams := streams - {id};
          var path := registry.Revoke(id);
          if path.Some? {
            responses := responses + [DeleteFile(path.value)];
          }
        }
        so := SweepOne(so, partitions, id);
      }
      assert order[..|order|] == order;
      SweptAll(start, partitions, order);
    }

    method ForgetPartitions(partitions: set<TopicId>)
      modifies this`watermark, this`uploaded
      ensures watermark == old(watermark) - partitions && uploaded == old(uploaded) - partitions
    {
      var todo := partitions;
      while todo != {}
        invariant todo <= partitions
        invariant watermark == old(watermark) - (partitions - todo)
        invariant uploaded == old(uploaded) - (partitions - todo)
        decreases todo
      {
        var t :| t in todo;
        todo := todo - {t};
        watermark := watermark - {t};
        uploaded := uploaded - {t};
      }
      assert partitions - {} == partitions;
    }

    method HandleCommitTick(assignment: set<TopicId>)
      modifies this
      ensures View() == Committed(old(View()), assignment)
      ensures responses == old(responses) + [CommitAsync(CommitListOf(old(View()), assignment))]
    {
      var tpl := MakeTopicPartitionList(assignment);
      responses := responses + [CommitAsync(tpl)];
    }

    method HandleFinalCommit(assignment: set<TopicId>)
      modifies this
      ensures View() == Committed(old(View()), assignment)
      ensures responses == old(responses) + [CommitSync(CommitListOf(old(View()), assignment))]
    {
      var tpl := MakeTopicPartitionList(assignment);
      responses := responses + [CommitSync(tpl)];
    }

    /** The commit scan, in whatever order the map yields its partitions. */
    method MakeTopicPartitionList(assignment: set<TopicId>) returns (result: CommitList)
      modifies this`uploaded, this`watermark
      ensures View() == Committed(old(View()), assignment)
      ensures result == CommitListOf(old(View()), assignment)
    {
      ghost var m0 := View();
      ghost var plan := PlanOf(m0, assignment);
      result := map[];
      var keysForGc := {};
      var todo := uploaded.Keys;
      while todo != {}
        invariant Scanned(m0, plan, todo, uploaded, watermark, result, keysForGc)
        decreases todo
      {
        var t :| t in todo;
        PlanAt(m0, assignment, t);
        ScanStep(m0, plan, t, todo, uploaded, watermark, result, keysForGc);
        todo := todo - {t};
        if t !in assignment {
          keysForGc := keysForGc + {t};
          continue;
        }
        if t !in watermark {
          continue;
        }
        var w := watermark[t];
        var offsetToCommit := OffsetToCommit(uploaded[t], w);
        if offsetToCommit > w {
          result := result[t := offsetToCommit];
          watermark := watermark[t := offsetToCommit];
        }
        uploaded := uploaded[t := set x | x in uploaded[t] && x >= offsetToCommit];
        if uploaded[t] == {} {
          keysForGc := keysForGc + {t};
        }
      }
      PlanDone(m0, assignment, uploaded, result);
      CollectGarbage(keysForGc);
    }

    method CollectGarbage(keys: set<TopicId>)
      modifies this`uploaded
      ensures uploaded == old(uploaded) - keys
    {
      var todo := keys;
      while todo != {}
        invariant todo <= keys
        invariant uploaded == old(uploaded) - (keys - todo)
        decreases todo
      {
        var t :| t in todo;
        todo := todo - {t};
        uploaded := uploaded - {t};
      }
      assert keys - {} == keys;
    }
  }

  // ----- the uploaded offsets, partition by partition

  /** The reported offsets have been added except for the partitions still to do. */
  ghost predicate Extended(up0: map<TopicId, set<int>>, offsets: Offsets, todo: set<TopicId>, up: map<TopicId, set<int>>) {
    && todo <= offsets.Keys && up.Keys == up0.Keys + (offsets.Keys - todo)
    && forall t | t in up :: up[t] == if t in offsets && t !in todo then Merged(up0, t, offsets[t]) else up0[t]
  }

  lemma ExtendOne(up0: map<TopicId, set<int>>, offsets: Offsets, todo: set<TopicId>, up: map<TopicId, set<int>>,
                  t: TopicId)
    requires Extended(up0, offsets, todo, up) && t in todo
    ensures t in offsets && Extended(up0, offsets, todo - {t}, up[t := Merged(up, t, offsets[t])])
  {
    assert UploadedOf(up, t) == UploadedOf(up0, t);
    assert offsets.Keys - (todo - {t}) == (offsets.Keys - todo) + {t};
  }

  // ----- the commit scan, partition by partition

  /** What a scan will list, leave and remove. */
  datatype Plan = Plan(list: CommitList, left: map<TopicId, set<int>>, drop: set<TopicId>)

  function PlanOf(m0: Machine, assignment: set<TopicId>): Plan {
    Plan(CommitListOf(m0, assignment),
         map t | t in m0.uploaded :: if t in assignment then Leftover(m0, t) else m0.uploaded[t],
         set t | t in m0.uploaded && (t !in assignment || (t in m0.watermark && Leftover(m0, t) == {})))
  }

  /** The state of a scan that has carried out the plan except for the partitions still to do. */
  ghost predicate Scanned(m0: Machine, plan: Plan, todo: set<TopicId>, up: map<TopicId, set<int>>,
                          wm: map<TopicId, int>, result: CommitList, gc: set<TopicId>) {
    && todo <= m0.uploaded.Keys == up.Keys == plan.left.Keys
    && plan.list.Keys <= m0.uploaded.Keys && plan.drop <= m0.uploaded.Keys
    && (forall t | t in up :: up[t] == if t in todo then m0.uploaded[t] else plan.left[t])
    && result == (map t | t in plan.list && t !in todo :: plan.list[t])
    && wm == m0.watermark + result
    && gc == plan.drop - todo
  }

  lemma ScanList(list: CommitList, todo: set<TopicId>, wm0: map<TopicId, int>, t: TopicId, result: CommitList)
    requires t in todo && result == map u | u in list && u !in todo :: list[u]
    ensures t !in result
    ensures var result' := if t in list then result[t := list[t]] else result;
            && result' == (map u | u in list && u !in todo - {t} :: list[u])
            && wm0 + result' == if t in list then (wm0 + result)[t := list[t]] else wm0 + result
  {
  }

  lemma ScanStep(m0: Machine, plan: Plan, t: TopicId, todo: set<TopicId>, up: map<TopicId, set<int>>,
                 wm: map<TopicId, int>, result: CommitList, gc: set<TopicId>)
    requires Scanned(m0, plan, todo, up, wm, result, gc) && t in todo
    ensures t !in result && up[t] == m0.uploaded[t]
    ensures t in wm <==> t in m0.watermark
    ensures t in wm ==> wm[t] == m0.watermark[t]
    ensures Scanned(m0, plan, todo - {t}, up[t := plan.left[t]],
                    if t in plan.list then wm[t := plan.list[t]] else wm,
                    if t in plan.list then result[t := plan.list[t]] else result,
                    if t in plan.drop then gc + {t} else gc)
    ensures plan.left[t] == up[t] ==> up[t := plan.left[t]] == up
  {
    ScanList(plan.list, todo, m0.watermark, t, result);
    assert plan.drop - (todo - {t}) == (plan.drop - todo) + if t in plan.drop then {t} else {};
  }

  lemma PlanAt(m0: Machine, assignment: set<TopicId>, t: TopicId)
    requires t in m0.uploaded
    ensures var plan := PlanOf(m0, assignment);
            if t !in assignment then
              t !in plan.list && plan.left[t] == m0.uploaded[t] && t in plan.drop
            else if t !in m0.watermark then
              t !in plan.list && plan.left[t] == m0.uploaded[t] && t !in plan.drop
            else
              var reach := Track.FirstGap(m0.watermark[t], m0.uploaded[t]);
              && plan.left[t] == (set x | x in m0.uploaded[t] && x >= reach)
              && (t in plan.drop <==> plan.left[t] == {})
              && (t in plan.list <==> reach > m0.watermark[t])
              && (t in plan.list ==> plan.list[t] == reach)
  {
  }

  lemma PlanDone(m0: Machine, assignment: set<TopicId>, up: map<TopicId, set<int>>, result: CommitList)
    requires Scanned(m0, PlanOf(m0, assignment), {}, up, m0.watermark + result, result,
                     PlanOf(m0, assignment).drop)
    ensures result == CommitListOf(m0, assignment)
    ensures up - PlanOf(m0, assignment).drop == Committed(m0, assignment).uploaded
  {
    assert result == PlanOf(m0, assignment).list;
    var left := up - PlanOf(m0, assignment).drop;
    var after := Committed(m0, assignment).uploaded;
    forall t | t in m0.uploaded
      ensures t in left <==> t in after
      ensures t in left ==> left[t] == after[t]
    {
      PlanAt(m0, assignment, t);
    }
    assert left.Keys == after.Keys;
  }

  lemma SeenStep(order: seq<StreamId>, i: nat)
    requires i < |order| && forall j, k | 0 <= j < k < |order| :: order[j] != order[k]
    ensures Seen(order[..i + 1]) == Seen(order[..i]) + {order[i]}
    ensures order[i] !in Seen(order[..i]) && order[i] !in order[..i]
    ensures order[..i + 1][..i] == order[..i]
  {
  }

  /** The part of the state that a revocation sweeps through. */
  datatype Sweep = Sweep(streams: map<StreamId, StreamState>, registry: Registry, deletions: seq<Response>)

  function SweepOne(s: Sweep, partitions: set<TopicId>, id: StreamId): Sweep {
    if id in s.streams && s.streams[id].offsetsConsumed.Keys <= partitions then
      Sweep(s.streams - {id}, Forgotten(s.registry, {id}),
            s.deletions + if id in s.registry.files then [DeleteFile(s.registry.files[id])] else [])
    else s
  }

  function Swept(s: Sweep, partitions: set<TopicId>, order: seq<StreamId>): Sweep {
    if order == [] then s else SweepOne(Swept(s, partitions, order[..|order| - 1]), partitions, order[|order| - 1])
  }

  /** The state after the given doomed streams have been taken out. */
  function WithoutStreams(s: Sweep, done: set<StreamId>, deletions: seq<Response>): Sweep {
    Sweep(s.streams - done, Forgotten(s.registry, done), s.deletions + deletions)
  }

  lemma SweepStep(s: Sweep, partitions: set<TopicId>, done: set<StreamId>, deletions: seq<Response>, id: StreamId)
    requires done <= RevokedStreams(s.streams, partitions) && id !in done
    ensures var doomed := id in RevokedStreams(s.streams, partitions);
            var deletion := if doomed && id in s.registry.files then [DeleteFile(s.registry.files[id])] else [];
            SweepOne(WithoutStreams(s, done, deletions), partitions, id)
            == WithoutStreams(s, if doomed then done + {id} else done, deletions + deletion)
  {
    assert s.streams - done - {id} == s.streams - (done + {id});
    assert s.registry.files - done - {id} == s.registry.files - (done + {id});
    assert deletions + [] == deletions;
  }

  /** Sweeping takes out exactly the visited streams whose partitions are all revoked. */
  lemma {:induction false} SweptIs(s: Sweep, partitions: set<TopicId>, order: seq<StreamId>)
    requires forall i, j | 0 <= i < j < |order| :: order[i] != order[j]
    ensures var gone := RevokedStreams(s.streams, partitions);
            Swept(s, partitions, order)
            == WithoutStreams(s, gone * Seen(order), Deletions(s.registry.files, gone, order))
  {
    var gone := RevokedStreams(s.streams, partitions);
    if order == [] {
      assert gone * Seen(order) == {};
      assert s.deletions + [] == s.deletions;
    } else {
      var init, id := order[..|order| - 1], order[|order| - 1];
      SweptIs(s, partitions, init);
      SeenStep(order, |order| - 1);
      assert order[..|order|] == order;
      var done := gone * Seen(init);
      assert gone * Seen(order) == if id in gone then done + {id} else done;
      SweepStep(s, partitions, done, Deletions(s.registry.files, gone, init), id);
    }
  }

  lemma SweptAll(s: Sweep, partitions: set<TopicId>, order: seq<StreamId>)
    requires Visits(order, s.streams) && s.deletions == []
    ensures var gone := RevokedStreams(s.streams, partitions);
            Swept(s, partitions, order)
            == Sweep(s.streams - gone, Forgotten(s.registry, gone), Deletions(s.registry.files, gone, order))
  {
    SweptIs(s, partitions, order);
    assert RevokedStreams(s.streams, partitions) * Seen(order) == RevokedStreams(s.streams, partitions);
  }

  /** One step of the shutdown loop. */
  lemma SealStep(c: Config, m0: Machine, env: Env, i: nat)
    requires i < |env.order|
    ensures var (m, rs) := SealAll(c, m0, env.order[..i], env);
            var id := env.order[i];
            SealAll(c, m0, env.order[..i + 1], env)
            == if id in m.streams then (SealStream(c, m, id, env).0, rs + [SealStream(c, m, id, env).1]) else (m, rs)
  {
    assert env.order[..i + 1][..i] == env.order[..i];
  }

  /** The state of the dormancy loop. */
  datatype Scan = Scan(machine: Machine, responses: seq<Response>, taken: nat)

  function TickOne(c: Config, s: Scan, id: StreamId, env: Env, cutOff: int, capacity: nat): Scan {
    if s.taken < capacity && id in s.machine.streams && s.machine.streams[id].createdAt <= cutOff then
      var (m, r) := SealStream(c, s.machine, id, env);
      Scan(m, s.responses + [r], s.taken + 1)
    else s
  }

  function Ticked(c: Config, s: Scan, order: seq<StreamId>, env: Env, cutOff: int, capacity: nat): Scan {
    if order == [] then s
    else TickOne(c, Ticked(c, s, order[..|order| - 1], env, cutOff, capacity), order[|order| - 1], env, cutOff, capacity)
  }

  /** The loop seals the dormant streams, as many as there is room for. */
  lemma {:induction false} TickedIs(c: Config, s: Scan, order: seq<StreamId>, env: Env, cutOff: int, capacity: nat)
    requires s.responses == [] && s.taken == 0
    requires forall i, j | 0 <= i < j < |order| :: order[i] != order[j]
    ensures var ids := Dormant(s.machine, order, cutOff, capacity);
            var (m, rs) := SealAll(c, s.machine, ids, env);
            Ticked(c, s, order, env, cutOff, capacity) == Scan(m, rs, |ids|)
  {
    if order != [] {
      var init, id := order[..|order| - 1], order[|order| - 1];
      TickedIs(c, s, init, env, cutOff, capacity);
      var ids := Dormant(s.machine, init, cutOff, capacity);
      SealAllFrame(c, s.machine, ids, env);
      DormantFrom(s.machine, init, cutOff, capacity);
      assert id !in ids;
      assert (ids + [id])[..|ids|] == ids;
    }
  }

  lemma {:induction false} DormantFrom(m: Machine, order: seq<StreamId>, cutOff: int, capacity: nat)
    ensures forall id | id in Dormant(m, order, cutOff, capacity) ::
              id in order && id in m.streams && m.streams[id].createdAt <= cutOff
  {
    if order != [] {
      DormantFrom(m, order[..|order| - 1], cutOff, capacity);
    }
  }
}
