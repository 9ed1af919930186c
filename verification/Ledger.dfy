/** A history of the records consumed since the program started and of where each one went. The
    program keeps no such lists: they are the yardstick against which its scattered offset lists and
    its files are measured. */
module Ledger {
  import opened DataModel
  import opened Config

  /** `active` holds the records of each stream's active file and `sealed` those of each sealed file,
      in order of consumption; `dropped` the streams each revocation took out, `lost` the streams
      whose file could not be closed, and `consumed` every record, in order. */
  datatype History = History(
    active: map<StreamId, seq<Record>>,
    sealed: map<Path, seq<Record>>,
    dropped: seq<map<StreamId, seq<Record>>>,
    lost: seq<seq<Record>>,
    consumed: seq<Record>)

  const EMPTY := History(map[], map[], [], [], [])

  function Records<K>(m: map<K, seq<Record>>, key: K): seq<Record> {
    if key in m then m[key] else []
  }

  function Received(h: History, id: StreamId, r: Record): History {
    h.(active := h.active[id := Records(h.active, id) + [r]], consumed := h.consumed + [r])
  }

  function SealedAs(h: History, id: StreamId, path: Path): History {
    h.(active := h.active - {id}, sealed := h.sealed[path := Records(h.active, id)])
  }

  function LostWith(h: History, id: StreamId): History {
    h.(active := h.active - {id}, lost := h.lost + [Records(h.active, id)])
  }

  function DroppedWith(h: History, ids: set<StreamId>): History {
    h.(active := h.active - ids, dropped := h.dropped + [map id | id in h.active && id in ids :: h.active[id]])
  }

  /** The records whose topic is configured and whose payload decodes. */
  predicate Accepted(c: Config, r: Record) {
    c.route(r).Some? && c.line(r).Ok?
  }

  /** The key of an object that a record may be stored in. */
  function KeyFor(c: Config, r: Record, path: Path): Bytes
    requires c.route(r).Some?
  {
    c.key(c.route(r).value, path)
  }

  /** The line a record contributes to its file; a skipped record contributes none. */
  function LineOf(c: Config, r: Record): Bytes {
    match c.line(r)
    case Ok(Some(line)) => line
    case _ => []
  }

  /** The concatenation of the lines of a list of records. */
  function Content(c: Config, rs: seq<Record>): Bytes {
    if rs == [] then [] else Content(c, rs[..|rs| - 1]) + LineOf(c, rs[|rs| - 1])
  }

  function Listed(os: Offsets, t: TopicId): seq<int> {
    if t in os then os[t] else []
  }

  function Pushed(os: Offsets, t: TopicId, offset: int): Offsets {
    os[t := Listed(os, t) + [offset]]
  }

  /** The offsets of a list of records, partition by partition. */
  function OffsetsOf(rs: seq<Record>): Offsets {
    if rs == [] then map[]
    else Pushed(OffsetsOf(rs[..|rs| - 1]), rs[|rs| - 1].Tid(), rs[|rs| - 1].offset)
  }

  lemma Snoc(c: Config, rs: seq<Record>, r: Record)
    ensures Content(c, rs + [r]) == Content(c, rs) + LineOf(c, r)
    ensures OffsetsOf(rs + [r]) == Pushed(OffsetsOf(rs), r.Tid(), r.offset)
  {
    assert (rs + [r])[..|rs|] == rs;
  }

  /** The offset lists hold exactly the offsets of the records. */
  lemma {:induction false} OffsetsHold(rs: seq<Record>, t: TopicId, offset: int)
    ensures offset in Listed(OffsetsOf(rs), t) <==> exists r | r in rs :: r.Tid() == t && r.offset == offset
  {
    if rs != [] {
      var init, last := rs[..|rs| - 1], rs[|rs| - 1];
      OffsetsHold(init, t, offset);
      assert rs == init + [last];
      if last.Tid() == t {
        assert Listed(OffsetsOf(rs), t) == Listed(OffsetsOf(init), t) + [last.offset];
      } else {
        assert Listed(OffsetsOf(rs), t) == Listed(OffsetsOf(init), t);
      }
    }
  }

  lemma {:induction false} OffsetsKeys(rs: seq<Record>, t: TopicId)
    ensures t in OffsetsOf(rs) <==> exists r | r in rs :: r.Tid() == t
  {
    if rs != [] {
      var init, last := rs[..|rs| - 1], rs[|rs| - 1];
      OffsetsKeys(init, t);
      assert rs == init + [last];
    }
  }

  /** A record's line is a stretch of any content made from a list that holds the record. */
  lemma {:induction false} ContentHolds(c: Config, rs: seq<Record>, r: Record) returns (before: Bytes, after: Bytes)
    requires r in rs
    ensures Content(c, rs) == before + LineOf(c, r) + after
  {
    var init, last := rs[..|rs| - 1], rs[|rs| - 1];
    if last == r {
      before, after := Content(c, init), [];
    } else {
      before, after := ContentHolds(c, init, r);
      after := after + LineOf(c, last);
    }
  }
}
