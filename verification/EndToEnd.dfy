/** What at-least-once delivery means for bytes: the sink with its own router, serializer and key generator. */
module EndToEnd {
  import opened DataModel
  import opened Text
  import opened JsonSerializer
  import opened Router
  import opened KeyGenerator
  import opened Settings
  import opened Ledger
  import opened MachineModel
  import opened FileRegistry
  import opened MachineInvariant
  import opened Agreement
  import opened World
  import opened AtLeastOnce
  import opened Group

  /** The data payload of a record whose topic is configured; None if the record is skipped. */
  function DataOf(settings: Settings, r: Record): Option<Bytes>
    requires r.topic in settings.topics
  {
    if r.payload.None? then None
    else
      var data := settings.topics[r.topic].decoder.DataPayload(r.payload.value);
      if data == Some([]) then None else data
  }

  function PrintedLine(settings: Settings, r: Record): Bytes
    requires r.topic in settings.topics
  {
    match DataOf(settings, r)
    case Some(data) => Line(data, r.HeaderList())
    case None => []
  }

  /** The data payload of a record is there, decodes and is not empty. */
  ghost predicate HasData(settings: Settings, r: Record, data: Bytes)
    requires r.topic in settings.topics
  {
    r.payload.Some? && Decodes(settings.topics[r.topic].decoder, r.payload.value, data) && data != []
  }

  /** The record has nothing to store: its payload is null or decodes to nothing. */
  ghost predicate Empty(settings: Settings, r: Record)
    requires r.topic in settings.topics
  {
    r.payload.None? || Decodes(settings.topics[r.topic].decoder, r.payload.value, [])
  }

  ghost predicate Undecodable(settings: Settings, r: Record)
    requires r.topic in settings.topics
  {
    r.payload.Some? && forall data :: !Decodes(settings.topics[r.topic].decoder, r.payload.value, data)
  }

  /** An object has a stretch, and if its payloads have no newlines a part. */
  ghost predicate Shows(settings: Settings, o: Object, line: Bytes) {
    && (exists before, after :: o.content == before + line + after)
    && (line != [] && Unbroken(settings, o.records) ==> line[..|line| - 1] in Split(o.content, NEWLINE))
  }

  /** A stored object under the record's own key lists the record's offset, and either the record has nothing to store
      or its payload decodes to data whose line the object shows. */
  ghost predicate Found(settings: Settings, store: seq<Object>, r: Record) {
    && r.topic in settings.topics
    && exists k | 0 <= k < |store| ::
         && r.offset in Listed(store[k].offsets, r.Tid())
         && store[k].key == KeyInner(StreamIdOf(settings.topics[r.topic].router, r), settings.stamp(store[k].path))
         && (Empty(settings, r)
             || exists data :: HasData(settings, r, data) && Shows(settings, store[k], Line(data, r.HeaderList())))
  }

  /** What the settings make of a record: a stream if its topic is configured, and the outcomes of serializing it. */
  lemma SettingsMean(settings: Settings, r: Record)
    ensures var c := settings.Configure();
            && (c.route(r).Some? <==> r.topic in settings.topics)
            && (r.topic in settings.topics ==>
                  && c.route(r) == Some(StreamIdOf(settings.topics[r.topic].router, r))
                  && (c.line(r) == Ok(None) <==> Empty(settings, r))
                  && (forall data | HasData(settings, r, data) :: c.line(r) == Ok(Some(Line(data, r.HeaderList()))))
                  && (c.line(r).Err? <==> Undecodable(settings, r))
                  && (!Empty(settings, r) && !Undecodable(settings, r) ==> exists data :: HasData(settings, r, data)))
  {
    if r.topic in settings.topics {
      var decoder := settings.topics[r.topic].decoder;
      SerializedOutcomes(r, decoder);
      if r.payload.Some? && !Undecodable(settings, r) {
        var data :| Decodes(decoder, r.payload.value, data);
        assert data != [] ==> HasData(settings, r, data);
      }
    }
  }

  /** No data payload with a newline byte in it. */
  predicate Unbroken(settings: Settings, rs: seq<Record>) {
    forall r | r in rs :: r.topic in settings.topics && !BreaksLines(settings, r)
  }

  lemma PrintedIs(settings: Settings, r: Record)
    requires Accepted(settings.Configure(), r)
    ensures var c := settings.Configure();
            && r.topic in settings.topics
            && c.route(r) == Some(StreamIdOf(settings.topics[r.topic].router, r))
            && LineOf(c, r) == PrintedLine(settings, r)
            && (c.line(r) == Ok(None) <==> DataOf(settings, r).None?)
  {
  }

  // ----- files split into lines

  /** The printed records of a file, without their newlines. */
  function Texts(settings: Settings, rs: seq<Record>): seq<Bytes>
    requires forall r | r in rs :: Accepted(settings.Configure(), r)
  {
    if rs == [] then []
    else
      var init, last := rs[..|rs| - 1], rs[|rs| - 1];
      assert last in rs && forall r | r in init :: r in rs;
      PrintedIs(settings, last);
      Texts(settings, init)
      + match DataOf(settings, last)
        case Some(data) => [PrintedText(data, last.HeaderList())]
        case None => []
  }

  /** A line without its newline. */
  function PrintedText(data: Bytes, hs: seq<Header>): Bytes {
    Line(data, hs)[..|Line(data, hs)| - 1]
  }

  lemma JoinEndless(texts: seq<Bytes>, text: Bytes)
    ensures Join(texts + [text] + [[]], NEWLINE) == Join(texts + [[]], NEWLINE) + (text + [NEWLINE])
  {
    JoinSnoc(texts + [text], [], NEWLINE);
    if texts != [] {
      JoinSnoc(texts, text, NEWLINE);
      JoinSnoc(texts, [], NEWLINE);
      assert Join(texts + [[]], NEWLINE) == Join(texts, NEWLINE) + [NEWLINE];
    } else {
      assert texts + [text] == [text] && texts + [[]] == [[]];
    }
  }

  lemma {:induction false} ContentJoins(settings: Settings, rs: seq<Record>)
    requires forall r | r in rs :: Accepted(settings.Configure(), r)
    ensures Content(settings.Configure(), rs) == Join(Texts(settings, rs) + [[]], NEWLINE)
  {
    if rs != [] {
      var init, last := rs[..|rs| - 1], rs[|rs| - 1];
      assert last in rs && forall r | r in init :: r in rs;
      ContentJoins(settings, init);
      PrintedIs(settings, last);
      match DataOf(settings, last)
      case Some(data) =>
        LineFraming(data, last.HeaderList());
        JoinEndless(Texts(settings, init), PrintedText(data, last.HeaderList()));
      case None => assert Texts(settings, rs) == Texts(settings, init);
    }
  }

  /** A data payload with a newline byte in it. */
  predicate BreaksLines(settings: Settings, r: Record)
    requires r.topic in settings.topics
  {
    DataOf(settings, r).Some? && NEWLINE in DataOf(settings, r).value
  }

  lemma {:induction false} TextsFree(settings: Settings, rs: seq<Record>)
    requires forall r | r in rs :: Accepted(settings.Configure(), r)
    ensures forall r | r in rs :: r.topic in settings.topics
    ensures Free(Texts(settings, rs), NEWLINE) <==> forall r | r in rs :: !BreaksLines(settings, r)
  {
    if rs != [] {
      var init, last := rs[..|rs| - 1], rs[|rs| - 1];
      assert rs == init + [last];
      assert last in rs && forall r | r in init :: r in rs;
      TextsFree(settings, init);
      PrintedIs(settings, last);
      if DataOf(settings, last).Some? {
        LineFraming(DataOf(settings, last).value, last.HeaderList());
        assert Texts(settings, rs) == Texts(settings, init) + [PrintedText(DataOf(settings, last).value, last.HeaderList())];
        FreeSnoc(Texts(settings, init), PrintedText(DataOf(settings, last).value, last.HeaderList()));
      }
    }
  }

  lemma FreeSnoc(parts: seq<Bytes>, p: Bytes)
    ensures Free(parts + [p], NEWLINE) <==> Free(parts, NEWLINE) && NEWLINE !in p
  {
    var all := parts + [p];
    assert forall x | x in parts :: x in all;
    assert p in all;
  }

  /** Splitting a file at newlines gives back its printed records, in order, and an empty rest, exactly when
      no data payload in it has a newline. */
  lemma FileFraming(settings: Settings, rs: seq<Record>)
    requires forall r | r in rs :: Accepted(settings.Configure(), r)
    ensures forall r | r in rs :: r.topic in settings.topics
    ensures Split(Content(settings.Configure(), rs), NEWLINE) == Texts(settings, rs) + [[]]
            <==> forall r | r in rs :: !BreaksLines(settings, r)
  {
    ContentJoins(settings, rs);
    SplitJoin(Texts(settings, rs) + [[]], NEWLINE);
    FreeSnoc(Texts(settings, rs), []);
    TextsFree(settings, rs);
  }

  // ----- every committed record can be found

  lemma {:induction false} TextIn(settings: Settings, rs: seq<Record>, r: Record)
    requires (forall x | x in rs :: Accepted(settings.Configure(), x)) && r in rs && r.topic in settings.topics
    requires DataOf(settings, r).Some?
    ensures PrintedText(DataOf(settings, r).value, r.HeaderList()) in Texts(settings, rs)
  {
    var init, last := rs[..|rs| - 1], rs[|rs| - 1];
    assert rs == init + [last] && last in rs && forall x | x in init :: x in rs;
    PrintedIs(settings, last);
    if r in init {
      TextIn(settings, init, r);
    }
  }

  /** In an object without newlines in its payloads, a record's printed text is one of the parts. */
  lemma TextIsPart(settings: Settings, o: Object, r: Record)
    requires HoldsLines(settings.Configure(), o) && r in o.records && r.topic in settings.topics
    ensures DataOf(settings, r).Some? && Unbroken(settings, o.records) ==>
              PrintedText(DataOf(settings, r).value, r.HeaderList()) in Split(o.content, NEWLINE)
  {
    if DataOf(settings, r).Some? && Unbroken(settings, o.records) {
      FileFraming(settings, o.records);
      TextIn(settings, o.records, r);
    }
  }

  /** A delivered record is empty, or has data whose line the object shows. */
  lemma DeliveredShows(settings: Settings, o: Object, r: Record)
    requires Delivers(settings.Configure(), o, r)
    ensures r.topic in settings.topics
    ensures Empty(settings, r)
            || exists data :: HasData(settings, r, data) && Shows(settings, o, Line(data, r.HeaderList()))
  {
    SettingsMean(settings, r);
    PrintedIs(settings, r);
    if !Empty(settings, r) {
      var data :| HasData(settings, r, data);
      assert DataOf(settings, r) == Some(data);
      assert LineOf(settings.Configure(), r) == Line(data, r.HeaderList());
      TextIsPart(settings, o, r);
    }
  }

  lemma DeliveredIsFound(settings: Settings, store: seq<Object>, r: Record)
    requires Delivered(settings.Configure(), store, r)
    ensures Found(settings, store, r)
  {
    var k :| 0 <= k < |store| && Delivers(settings.Configure(), store[k], r);
    PrintedIs(settings, r);
    DeliveredShows(settings, store[k], r);
  }

  /** In every run, a record from its partition's initial position up to the group's committed offset is in
      the store, in an object keyed by its stream: its payload is null, decodes to nothing, or decodes to the data
      on its line there. */
  lemma CommittedRecordsAreFound(settings: Settings, log: set<Record>, first: map<TopicId, int>,
                                 ws: seq<World>, es: seq<Event>, i: nat, r: Record)
    requires OneRecordAnOffset(log) && IsRun(settings.Configure(), log, first, ws, es) && i < |ws|
    requires r in log && r.Tid() in first && first[r.Tid()] <= r.offset
    ensures r.Tid() in ws[i].committed
    ensures r.offset < ws[i].committed[r.Tid()] ==> Found(settings, ws[i].store, r)
  {
    AtLeastOnce.AtLeastOnce(settings.Configure(), log, first, ws, es, i, r);
    if r.offset < ws[i].committed[r.Tid()] {
      DeliveredIsFound(settings, ws[i].store, r);
    }
  }

  /** In every run each stored object lists the offsets of some records of the log, all of one stream and keyed
      by it, and splits into exactly their printed lines if none of their payloads has a newline. */
  lemma StoredObjectsSplit(settings: Settings, log: set<Record>, first: map<TopicId, int>, ws: seq<World>,
                           es: seq<Event>, i: nat, k: nat)
    requires IsRun(settings.Configure(), log, first, ws, es) && i < |ws| && k < |ws[i].store|
    ensures var o := ws[i].store[k];
            && o.offsets == OffsetsOf(o.records)
            && (forall r | r in o.records ::
                  && r in log && Accepted(settings.Configure(), r) && r.topic in settings.topics
                  && o.key == KeyInner(StreamIdOf(settings.topics[r.topic].router, r), settings.stamp(o.path)))
            && (Split(o.content, NEWLINE) == Texts(settings, o.records) + [[]]
                <==> forall r | r in o.records :: !BreaksLines(settings, r))
  {
    var c := settings.Configure();
    ReachableOk(c, log, first, ws, es, i);
    var o := ws[i].store[k];
    assert o in ws[i].store && ObjectOk(c, log, o);
    FileFraming(settings, o.records);
    forall r | r in o.records
      ensures o.key == KeyInner(StreamIdOf(settings.topics[r.topic].router, r), settings.stamp(o.path))
    {
      PrintedIs(settings, r);
    }
  }

  /** The same in every run of a group of any number of members. */
  lemma GroupRecordsAreFound(settings: Settings, log: set<Record>, first: map<TopicId, int>, n: nat,
                             gs: seq<Members>, steps: seq<Step>, i: nat, j: nat, r: Record)
    requires OneRecordAnOffset(log) && IsGroupRun(settings.Configure(), log, first, n, gs, steps) && i < |gs| && j < n
    requires r in log && r.Tid() in first && first[r.Tid()] <= r.offset
    ensures |gs[i]| == n && r.Tid() in gs[i][j].committed
    ensures r.offset < gs[i][j].committed[r.Tid()] ==> Found(settings, gs[i][j].store, r)
  {
    var ws, es := MemberRun(settings.Configure(), log, first, n, gs, steps, j);
    CommittedRecordsAreFound(settings, log, first, ws, es, i, r);
  }

  // ----- when a run ends

  /** In every run, a record ends it exactly when its topic is not configured, it has a payload that does not decode, or
      it has data and the disk fails to write its line or to close the file it fills. */
  lemma RecordEndsSettings(settings: Settings, log: set<Record>, first: map<TopicId, int>, ws: seq<World>,
                           es: seq<Event>, i: nat, r: Record, env: Env)
    requires IsRun(settings.Configure(), log, first, ws, es) && i < |ws| && !ws[i].sink.phase.Stopped?
    ensures var c, m := settings.Configure(), ws[i].sink.machine;
            !NoFatal(HandleProcessRecord(c, m, r, env).1) <==>
              || r.topic !in settings.topics
              || Undecodable(settings, r)
              || (!Empty(settings, r)
                  && var id := StreamIdOf(settings.topics[r.topic].router, r);
                     || Refused(m.registry, id, env.writeFault)
                     || (Fills(c, m, r, id) && id in env.closeFails))
  {
    RecordEndsRun(settings.Configure(), log, first, ws, es, i, r, env);
    SettingsMean(settings, r);
  }

  // ----- objects do not replace each other

  /** Different objects of the store were made with different UUIDs of one length, and nothing in their keys but the
      separators is a slash. */
  ghost predicate FreshStamps(settings: Settings, store: seq<Object>) {
    && (forall k | 0 <= k < |store| :: SlashFreeStamp(settings.stamp(store[k].path)))
    && (forall k, r | 0 <= k < |store| && r in store[k].records && r.topic in settings.topics ::
          Free(Split(StreamIdOf(settings.topics[r.topic].router, r).name, DELIMITER), SLASH))
    && (forall j, k | 0 <= j < k < |store| ::
          var u, v := settings.stamp(store[j].path).uuid, settings.stamp(store[k].path).uuid; |u| == |v| && u != v)
  }

  lemma KeyOf(settings: Settings, o: Object) returns (r: Record)
    requires HoldsLines(settings.Configure(), o)
    ensures r in o.records && r.topic in settings.topics
    ensures o.key == KeyInner(StreamIdOf(settings.topics[r.topic].router, r), settings.stamp(o.path))
  {
    r := o.records[0];
    assert r in o.records;
    PrintedIs(settings, r);
  }

  lemma KeysDiffer(settings: Settings, store: seq<Object>, j: nat, k: nat)
    requires j < k < |store| && FreshStamps(settings, store)
    requires HoldsLines(settings.Configure(), store[j]) && HoldsLines(settings.Configure(), store[k])
    ensures store[j].key != store[k].key
  {
    var r1 := KeyOf(settings, store[j]);
    var r2 := KeyOf(settings, store[k]);
    KeysDistinguish(StreamIdOf(settings.topics[r1.topic].router, r1), settings.stamp(store[j].path),
                    StreamIdOf(settings.topics[r2.topic].router, r2), settings.stamp(store[k].path));
  }

  /** With fresh UUIDs the store may be read as a bucket with one object a key: each record below the committed offset is
      in it. */
  lemma CommittedRecordsInBucket(settings: Settings, log: set<Record>, first: map<TopicId, int>, ws: seq<World>,
                                 es: seq<Event>, i: nat, r: Record)
    requires OneRecordAnOffset(log) && IsRun(settings.Configure(), log, first, ws, es) && i < |ws|
    requires r in log && r.Tid() in first && first[r.Tid()] <= r.offset && FreshStamps(settings, ws[i].store)
    ensures r.Tid() in ws[i].committed
    ensures r.offset < ws[i].committed[r.Tid()] ==>
              exists key :: key in Bucket(ws[i].store) && Delivers(settings.Configure(), Bucket(ws[i].store)[key], r)
  {
    var c, store := settings.Configure(), ws[i].store;
    ReachableOk(c, log, first, ws, es, i);
    forall k | 0 <= k < |store|
      ensures Lasts(store, k)
    {
      forall j | k < j < |store|
        ensures store[j].key != store[k].key
      {
        assert store[j] in store && store[k] in store;
        KeysDiffer(settings, store, k, j);
      }
    }
    AtLeastOnceInBucket(c, log, first, ws, es, i, r);
  }
}
