/** Object keys: the components of a stream identifier as directories, then a date segment and a file name. */
module KeyGenerator {
  import opened DataModel
  import opened Text
  import opened Router

  const SLASH: byte := 0x2F
  const DAY_PREFIX: Bytes := Ascii("ingest_year_month_day=")
  const EXTENSION: Bytes := Ascii(".jsonl.zst")
  const DASH: Bytes := Ascii("-")

  function DaySegment(now: Stamp): Bytes { DAY_PREFIX + now.day }

  function FileName(now: Stamp): Bytes { now.time + DASH + now.uuid + EXTENSION }

  function Suffix(now: Stamp): Bytes { DaySegment(now) + [SLASH] + FileName(now) }

  function KeyInner(id: StreamId, now: Stamp): Bytes {
    Join(Split(id.name, DELIMITER) + [Suffix(now)], SLASH)
  }

  predicate SlashFreeStamp(now: Stamp) {
    SLASH !in now.day && SLASH !in now.time && SLASH !in now.uuid
  }

  /** A key splits into the components of its stream and two last segments exactly when no component holds a slash. */
  lemma KeyDecodes(id: StreamId, now: Stamp)
    requires SlashFreeStamp(now)
    ensures Split(KeyInner(id, now), SLASH) == Split(id.name, DELIMITER) + [DaySegment(now), FileName(now)]
            <==> Free(Split(id.name, DELIMITER), SLASH)
  {
    var parts, last := Split(id.name, DELIMITER), [DaySegment(now), FileName(now)];
    JoinLastTwo(parts, DaySegment(now), FileName(now), SLASH);
    assert SLASH !in DAY_PREFIX && SLASH !in EXTENSION && SLASH !in DASH;
    assert SLASH !in DaySegment(now) && SLASH !in FileName(now);
    assert Free(parts + last, SLASH) <==> Free(parts, SLASH) by {
      assert forall p | p in parts :: p in parts + last;
    }
    SplitJoin(parts + last, SLASH);
  }

  /** The part of a key before the date segment. */
  function Directory(id: StreamId): Bytes {
    Join(Split(id.name, DELIMITER), SLASH)
  }

  /** Without slashes in the components, directories agree exactly when the streams do. */
  lemma DirectoryDeterminesStream(id1: StreamId, id2: StreamId)
    requires Free(Split(id1.name, DELIMITER), SLASH) && Free(Split(id2.name, DELIMITER), SLASH)
    ensures Directory(id1) == Directory(id2) <==> id1 == id2
  {
    SplitJoin(Split(id1.name, DELIMITER), SLASH);
    SplitJoin(Split(id2.name, DELIMITER), SLASH);
    JoinSplit(id1.name, DELIMITER);
    JoinSplit(id2.name, DELIMITER);
  }

  /** Whatever the clock and the UUID were, such a key determines the stream it belongs to. */
  lemma KeyDeterminesStream(id1: StreamId, now1: Stamp, id2: StreamId, now2: Stamp)
    requires Free(Split(id1.name, DELIMITER), SLASH) && SlashFreeStamp(now1)
    requires Free(Split(id2.name, DELIMITER), SLASH) && SlashFreeStamp(now2)
    requires KeyInner(id1, now1) == KeyInner(id2, now2)
    ensures id1 == id2 && now1.day == now2.day
  {
    KeyDecodes(id1, now1);
    KeyDecodes(id2, now2);
    var p1, p2 := Split(id1.name, DELIMITER), Split(id2.name, DELIMITER);
    var k1, k2 := p1 + [DaySegment(now1), FileName(now1)], p2 + [DaySegment(now2), FileName(now2)];
    assert p1 == k1[..|k1| - 2] && p2 == k2[..|k2| - 2];
    assert k1[|k1| - 2] == DaySegment(now1) && k2[|k2| - 2] == DaySegment(now2);
    assert now1.day == DaySegment(now1)[|DAY_PREFIX|..] && now2.day == DaySegment(now2)[|DAY_PREFIX|..];
    JoinSplit(id1.name, DELIMITER);
    JoinSplit(id2.name, DELIMITER);
  }

  /** A key is the directory of its stream, then the date segment and the file name. */
  lemma KeyPrefix(id: StreamId, now: Stamp)
    ensures KeyInner(id, now) == Directory(id) + [SLASH] + Suffix(now)
  {
    JoinSnoc(Split(id.name, DELIMITER), Suffix(now), SLASH);
  }

  /** The fixed parts of a key. */
  lemma KeyNames()
    ensures SLASH == 0x2F && [SLASH] == Ascii("/") && DASH == Ascii("-") && EXTENSION == Ascii(".jsonl.zst")
    ensures [SLASH] + DAY_PREFIX == Ascii("/ingest_year_month_day=")
  {
  }

  lemma Eight(a: Bytes, b: Bytes, c: Bytes, d: Bytes, e: Bytes, f: Bytes, g: Bytes, h: Bytes)
    ensures a + b + (c + d + b + (e + f + g + h)) == a + (b + c) + d + b + e + f + g + h
  {
  }

  /** A key, written out: the components of the stream, the day, and a file name of the time and the UUID. */
  lemma KeyIs(id: StreamId, now: Stamp)
    ensures KeyInner(id, now)
            == Join(Split(id.name, DELIMITER), 0x2F) + Ascii("/ingest_year_month_day=") + now.day
               + Ascii("/") + now.time + Ascii("-") + now.uuid + Ascii(".jsonl.zst")
  {
    KeyPrefix(id, now);
    KeyNames();
    Eight(Directory(id), [SLASH], DAY_PREFIX, now.day, now.time, DASH, now.uuid, EXTENSION);
  }

  lemma FileNameDetermines(now1: Stamp, now2: Stamp)
    requires FileName(now1) == FileName(now2) && |now1.uuid| == |now2.uuid|
    ensures now1.time == now2.time && now1.uuid == now2.uuid
  {
    var f1, f2, n := FileName(now1), FileName(now2), |now1.time|;
    assert |now2.time| == n;
    assert f1[..n] == now1.time && f2[..n] == now2.time;
    var u := n + |DASH|;
    assert f1[u..u + |now1.uuid|] == now1.uuid && f2[u..u + |now1.uuid|] == now2.uuid;
  }

  /** Without slashes, keys made with UUIDs of one length agree only if the streams and the whole stamps do: files
      sealed with different UUIDs never share a key. */
  lemma KeysDistinguish(id1: StreamId, now1: Stamp, id2: StreamId, now2: Stamp)
    requires Free(Split(id1.name, DELIMITER), SLASH) && SlashFreeStamp(now1)
    requires Free(Split(id2.name, DELIMITER), SLASH) && SlashFreeStamp(now2)
    requires |now1.uuid| == |now2.uuid|
    ensures KeyInner(id1, now1) == KeyInner(id2, now2) <==> id1 == id2 && now1 == now2
  {
    if KeyInner(id1, now1) == KeyInner(id2, now2) {
      KeyDeterminesStream(id1, now1, id2, now2);
      KeyDecodes(id1, now1);
      KeyDecodes(id2, now2);
      var k1 := Split(id1.name, DELIMITER) + [DaySegment(now1), FileName(now1)];
      var k2 := Split(id2.name, DELIMITER) + [DaySegment(now2), FileName(now2)];
      assert k1 == k2 && k1[|k1| - 1] == FileName(now1) && k2[|k2| - 1] == FileName(now2);
      FileNameDetermines(now1, now2);
    }
  }
}
