/** The sink among its surroundings: the partition logs, the consumer group's committed offsets, the
    rebalances, the object store, the other members of the group, and crashes. A commit may reach the broker
    at any time after it was sent, more than once, late or never. */
module World {
  import opened DataModel
  import opened Config
  import opened FileRegistry
  import opened Ledger
  import opened MachineModel
  import opened SinkModel

  /** A stored object; `records` is the history of what went into its file. */
  datatype Object = Object(key: Bytes, path: Path, content: Bytes, offsets: Offsets, records: seq<Record>)

  /** `owned` are the partitions the consumer owns, `pending` the revocations the event loop has not
      seen yet, `position` where the consumer reads on. Since the program started, `landed` are the
      uploads that succeeded, `discarded` the failed ones that the drain did not retry, and `revoked`
      the partitions revoked. */
  datatype World = World(
    sink: Sink,
    owned: set<TopicId>,
    pending: seq<set<TopicId>>,
    position: map<TopicId, int>,
    committed: map<TopicId, int>,
    store: seq<Object>,
    landed: seq<ToUpload>,
    discarded: seq<ToUpload>,
    revoked: set<TopicId>)

  datatype Event =
    | Assign(partition: TopicId)
    | Revoke(partitions: set<TopicId>)
    | LoopTurn(polled: Polled, env: Env)
    | DrainUpload(index: nat, ok: bool)
    | FinalTurn(assignment: set<TopicId>)
    | BrokerApplies(index: nat)
    | Crash(next: Path)
    | Others(objects: seq<Object>, commits: CommitList)

  /** In a log, an offset of a partition names one record. */
  predicate OneRecordAnOffset(log: set<Record>) {
    forall r1, r2 | r1 in log && r2 in log && r1.Tid() == r2.Tid() && r1.offset == r2.offset :: r1 == r2
  }

  /** The record a consumer at the given position is delivered. */
  predicate NextRecord(log: set<Record>, t: TopicId, position: int, r: Record) {
    && r in log && r.Tid() == t && r.offset >= position
    && forall other | other in log && other.Tid() == t && other.offset >= position :: other.offset >= r.offset
  }

  /** A group that starts at the given positions. */
  function Init(first: map<TopicId, int>): World {
    World(Sink(New(Registry(map[], map[], 0)), [], [], Running), {}, [], map[], first, [], [], [], {})
  }

  predicate Enabled(log: set<Record>, w: World, e: Event) {
    match e
    case Assign(t) => !w.sink.phase.Stopped? && t !in w.owned && t in w.committed
    case Revoke(ts) => !w.sink.phase.Stopped? && ts <= w.owned
    case LoopTurn(p, env) =>
      && w.sink.phase.Running? && Pollable(w.sink, p) && Visits(env.order, w.sink.machine.streams)
      && (p.Received? ==>
            && p.record.Tid() in w.owned && p.record.Tid() in w.position
            && NextRecord(log, p.record.Tid(), w.position[p.record.Tid()], p.record))
    case DrainUpload(i, _) => w.sink.phase.Draining? && i < |w.sink.pool|
    case FinalTurn(_) => w.sink.phase.Draining? && w.sink.pool == []
    case BrokerApplies(i) => i < |w.sink.sent|
    case Crash(next) => forall p | p in w.sink.machine.registry.disk :: p < next
    case Others(_, _) => true
  }

  /** What the uploader has stored when an upload succeeds. */
  function ObjectOf(m: Machine, u: ToUpload): Object {
    var path := u.file.path;
    Object(u.objectKey, path, if path in m.registry.disk then m.registry.disk[path] else [],
           u.file.offsetsConsumed, Records(m.history.sealed, path))
  }

  function StoreAfter(w: World, index: nat, ok: bool): seq<Object>
    requires index < |w.sink.pool|
  {
    if ok then w.store + [ObjectOf(w.sink.machine, w.sink.pool[index])] else w.store
  }

  function LandedAfter(w: World, index: nat, ok: bool): seq<ToUpload>
    requires index < |w.sink.pool|
  {
    if ok then w.landed + [w.sink.pool[index]] else w.landed
  }

  function Next(c: Config, log: set<Record>, w: World, e: Event): World
    requires Enabled(log, w, e)
  {
    match e
    case Assign(t) => w.(owned := w.owned + {t}, position := w.position[t := w.committed[t]])
    case Revoke(ts) => w.(owned := w.owned - ts, pending := w.pending + [ts], revoked := w.revoked + ts)
    case LoopTurn(p, env) =>
      w.(sink := Turn(c, w.sink, w.pending, p, env),
         pending := [],
         position := if p.Received? then w.position[p.record.Tid() := p.record.offset + 1] else w.position,
         store := if p.UploadDone? then StoreAfter(w, p.index, p.ok) else w.store,
         landed := if p.UploadDone? then LandedAfter(w, p.index, p.ok) else w.landed)
    case DrainUpload(i, ok) =>
      w.(sink := DrainStep(w.sink, i, ok),
         store := StoreAfter(w, i, ok),
         landed := LandedAfter(w, i, ok),
         discarded := if ok then w.discarded else w.discarded + [w.sink.pool[i]])
    case FinalTurn(assignment) => w.(sink := LastCommit(w.sink, assignment))
    case BrokerApplies(i) => w.(committed := w.committed + w.sink.sent[i])
    case Crash(next) =>
      World(Sink(New(Registry(map[], w.sink.machine.registry.disk, next)), [], w.sink.sent, Running),
            {}, [], map[], w.committed, w.store, [], [], {})
    case Others(objects, commits) => w.(store := w.store + objects, committed := w.committed + commits)
  }

  // ----- what is stored

  ghost predicate Stored(store: seq<Object>, t: TopicId, offset: int) {
    exists k | 0 <= k < |store| :: offset in Listed(store[k].offsets, t)
  }

  /** All records of a partition from its initial position up to an offset are stored. */
  ghost predicate Covered(log: set<Record>, first: map<TopicId, int>, store: seq<Object>, t: TopicId, upTo: int) {
    t in first && forall r | r in log && r.Tid() == t && first[t] <= r.offset < upTo :: Stored(store, t, r.offset)
  }

  ghost predicate AllCovered(log: set<Record>, first: map<TopicId, int>, store: seq<Object>, tpl: CommitList) {
    forall t | t in tpl :: Covered(log, first, store, t, tpl[t])
  }

  /** An object holds the lines of the records whose offsets it lists, under the key of their stream. */
  predicate HoldsLines(c: Config, o: Object) {
    && o.records != []
    && o.content == Content(c, o.records)
    && o.offsets == OffsetsOf(o.records)
    && forall r | r in o.records :: Accepted(c, r) && KeyFor(c, r, o.path) == o.key
  }

  predicate ObjectOk(c: Config, log: set<Record>, o: Object) {
    HoldsLines(c, o) && forall r | r in o.records :: r in log
  }

  /** What the other members of the group are relied on for: the objects they store hold what they list, and
      they commit only what is covered. `Group` shows that members that run this sink give that to each other. */
  ghost predicate Sound(c: Config, log: set<Record>, first: map<TopicId, int>, w: World, e: Event) {
    e.Others? ==>
      && (forall o | o in e.objects :: ObjectOk(c, log, o))
      && AllCovered(log, first, w.store + e.objects, e.commits)
  }

  /** A run: worlds and the events between them. */
  ghost predicate IsRun(c: Config, log: set<Record>, first: map<TopicId, int>, ws: seq<World>, es: seq<Event>) {
    && |ws| == |es| + 1 && ws[0] == Init(first)
    && forall i | 0 <= i < |es| ::
         Enabled(log, ws[i], es[i]) && Sound(c, log, first, ws[i], es[i]) && ws[i + 1] == Next(c, log, ws[i], es[i])
  }
}
