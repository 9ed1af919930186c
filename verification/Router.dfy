/** The mapping from a record to its stream identifier. */
module Router {
  import opened DataModel
  import opened Text
  import opened Utf8

  const DELIMITER: byte := 0x1F

  const UNKNOWN_SCHEMA_NAME: Bytes := Ascii("unknown_schema_name")
  const UNKNOWN_SCHEMA_VERSION: Bytes := Ascii("unknown_schema_version")
  const UNKNOWN_STATUS_CODE: Bytes := Ascii("unknown_status_code")

  const SCHEMA_NAME_HEADER: Bytes := Ascii("schema_name")
  const SCHEMA_VERSION_HEADER: Bytes := Ascii("schema_version")
  const STATUS_CODE_HEADER: Bytes := Ascii("status_code")

  const STATUS_CODE_PREFIX: Bytes := Ascii("status_code=")

  /** A header answers a lookup when its key matches and its value is present, UTF-8 and not empty. */
  predicate Answers(h: Header, key: Bytes) {
    h.key == key && h.value.Some? && ValidUtf8(h.value.value) && h.value.value != []
  }

  /** The first header that answers the lookup; one with the key but an unusable value is passed over. */
  function FindHeader(hs: seq<Header>, key: Bytes): (r: Option<Bytes>)
    ensures r.None? ==> forall h | h in hs :: !Answers(h, key)
    ensures r.Some? ==> exists i | 0 <= i < |hs| ::
                          && Answers(hs[i], key) && hs[i].value == r
                          && forall j | 0 <= j < i :: !Answers(hs[j], key)
  {
    if hs == [] then None
    else if Answers(hs[0], key) then assert 0 <= 0 < |hs|; hs[0].value
    else
      var r := FindHeader(hs[1..], key);
      assert r.Some? ==> exists i | 0 <= i < |hs| ::
        Answers(hs[i], key) && hs[i].value == r && forall j | 0 <= j < i :: !Answers(hs[j], key) by {
        if r.Some? {
          var i :| 0 <= i < |hs[1..]| && Answers(hs[1..][i], key) && hs[1..][i].value == r
                   && forall j | 0 <= j < i :: !Answers(hs[1..][j], key);
          assert hs[i + 1] == hs[1..][i];
          forall j | 0 <= j < i + 1 ensures !Answers(hs[j], key) {
            if j > 0 { assert hs[j] == hs[1..][j - 1]; }
          }
        }
      }
      r
  }

  function HeaderOr(r: Record, key: Bytes, default: Bytes): Bytes {
    var found := FindHeader(r.HeaderList(), key);
    if found.Some? then found.value else default
  }

  /** The parts a stream identifier is made of. */
  function Components(strategy: RouterStrategy, r: Record): (parts: seq<Bytes>)
    ensures parts != []
  {
    var name := HeaderOr(r, SCHEMA_NAME_HEADER, UNKNOWN_SCHEMA_NAME);
    var version := HeaderOr(r, SCHEMA_VERSION_HEADER, UNKNOWN_SCHEMA_VERSION);
    match strategy
    case TopicVersion => [name, version]
    case Dlq =>
      [r.topic, name, version, STATUS_CODE_PREFIX + HeaderOr(r, STATUS_CODE_HEADER, UNKNOWN_STATUS_CODE)]
  }

  function StreamIdOf(strategy: RouterStrategy, r: Record): StreamId {
    StreamId(Join(Components(strategy, r), DELIMITER))
  }

  /** The caller's reused string buffer. */
  class Buffer {
    var data: Bytes

    constructor ()
      ensures data == []
    {
      data := [];
    }
  }

  method WriteId(strategy: RouterStrategy, r: Record, buf: Buffer)
    modifies buf
    ensures buf.data == StreamIdOf(strategy, r).name
  {
    buf.data := [];
    match strategy {
      case TopicVersion => GroupByTopicVersion(r, buf);
      case Dlq => GroupByDlq(r, buf);
    }
  }

  method GroupByTopicVersion(r: Record, buf: Buffer)
    modifies buf
    ensures buf.data == old(buf.data) + StreamIdOf(TopicVersion, r).name
  {
    var schemaName := HeaderOr(r, SCHEMA_NAME_HEADER, UNKNOWN_SCHEMA_NAME);
    var schemaVersion := HeaderOr(r, SCHEMA_VERSION_HEADER, UNKNOWN_SCHEMA_VERSION);
    buf.data := buf.data + schemaName;
    buf.data := buf.data + [DELIMITER];
    buf.data := buf.data + schemaVersion;
    TwoParts(schemaName, schemaVersion);
  }

  method GroupByDlq(r: Record, buf: Buffer)
    modifies buf
    ensures buf.data == old(buf.data) + StreamIdOf(Dlq, r).name
  {
    var schemaName := HeaderOr(r, SCHEMA_NAME_HEADER, UNKNOWN_SCHEMA_NAME);
    var schemaVersion := HeaderOr(r, SCHEMA_VERSION_HEADER, UNKNOWN_SCHEMA_VERSION);
    var statusCode := HeaderOr(r, STATUS_CODE_HEADER, UNKNOWN_STATUS_CODE);
    ghost var before, id := buf.data, r.topic;
    buf.data := buf.data + r.topic;
    Then(before, id, [DELIMITER]);
    buf.data, id := buf.data + [DELIMITER], id + [DELIMITER];
    Then(before, id, schemaName);
    buf.data, id := buf.data + schemaName, id + schemaName;
    Then(before, id, [DELIMITER]);
    buf.data, id := buf.data + [DELIMITER], id + [DELIMITER];
    Then(before, id, schemaVersion);
    buf.data, id := buf.data + schemaVersion, id + schemaVersion;
    Then(before, id, [DELIMITER]);
    buf.data, id := buf.data + [DELIMITER], id + [DELIMITER];
    Then(before, id, STATUS_CODE_PREFIX);
    Then(id, STATUS_CODE_PREFIX, statusCode);
    buf.data, id := buf.data + STATUS_CODE_PREFIX, id + STATUS_CODE_PREFIX;
    Then(before, id, statusCode);
    buf.data := buf.data + statusCode;
    FourParts(r.topic, schemaName, schemaVersion, STATUS_CODE_PREFIX + statusCode);
  }

  lemma Then(a: Bytes, b: Bytes, c: Bytes)
    ensures a + b + c == a + (b + c)
  {
  }

  lemma TwoParts(a: Bytes, b: Bytes)
    ensures Join([a, b], DELIMITER) == a + [DELIMITER] + b
  {
    assert [a, b][1..] == [b];
  }

  lemma FourParts(a: Bytes, b: Bytes, c: Bytes, e: Bytes)
    ensures Join([a, b, c, e], DELIMITER) == a + [DELIMITER] + b + [DELIMITER] + c + [DELIMITER] + e
  {
    TwoParts(c, e);
    assert [b, c, e][1..] == [c, e];
    assert Join([b, c, e], DELIMITER) == b + [DELIMITER] + (c + [DELIMITER] + e);
    assert [a, b, c, e][1..] == [b, c, e];
  }

  // ----- what the identifiers say

  /** A header with the key, and a value that is text and not empty. */
  ghost predicate Usable(h: Header, key: Bytes) {
    h.key == key && h.value.Some? && h.value.value != [] && IsUtf8(h.value.value)
  }

  ghost predicate FirstUsable(hs: seq<Header>, key: Bytes, i: nat) {
    i < |hs| && Usable(hs[i], key) && forall j | 0 <= j < i :: !Usable(hs[j], key)
  }

  /** The value of the first usable header with the key or, when there is none, the fallback. */
  ghost predicate Says(r: Record, key: Bytes, fallback: Bytes, value: Bytes) {
    || (exists i: nat :: FirstUsable(r.HeaderList(), key, i) && r.HeaderList()[i].value == Some(value))
    || ((forall h | h in r.HeaderList() :: !Usable(h, key)) && value == fallback)
  }

  lemma UsableAnswers(h: Header, key: Bytes)
    ensures Usable(h, key) <==> Answers(h, key)
  {
    if h.value.Some? {
      ValidIsUtf8(h.value.value);
    }
  }

  lemma FirstUsableOnly(hs: seq<Header>, key: Bytes, i: nat, k: nat)
    requires FirstUsable(hs, key, i) && FirstUsable(hs, key, k)
    ensures i == k
  {
  }

  /** A lookup finds the one value that the headers say. */
  lemma LookupSays(r: Record, key: Bytes, fallback: Bytes, value: Bytes)
    ensures Says(r, key, fallback, value) <==> value == HeaderOr(r, key, fallback)
  {
    var hs := r.HeaderList();
    forall h
      ensures Usable(h, key) <==> Answers(h, key)
    {
      UsableAnswers(h, key);
    }
    if FindHeader(hs, key).Some? {
      var i: nat := FoundAt(hs, key);
      forall k: nat | FirstUsable(hs, key, k)
        ensures k == i
      {
        FirstUsableOnly(hs, key, i, k);
      }
      assert hs[i] in hs;
    } else {
      assert forall k: nat | k < |hs| :: hs[k] in hs;
    }
  }

  lemma FoundAt(hs: seq<Header>, key: Bytes) returns (i: nat)
    requires FindHeader(hs, key).Some?
    ensures FirstUsable(hs, key, i) && hs[i].value == FindHeader(hs, key)
  {
    i :| 0 <= i < |hs| && Answers(hs[i], key) && hs[i].value == FindHeader(hs, key)
         && forall j | 0 <= j < i :: !Answers(hs[j], key);
    forall j | 0 <= j <= i
      ensures Usable(hs[j], key) <==> Answers(hs[j], key)
    {
      UsableAnswers(hs[j], key);
    }
  }

  /** The names the router goes by. */
  lemma RouterNames()
    ensures DELIMITER == 0x1F
    ensures SCHEMA_NAME_HEADER == Ascii("schema_name") && UNKNOWN_SCHEMA_NAME == Ascii("unknown_schema_name")
    ensures SCHEMA_VERSION_HEADER == Ascii("schema_version") && UNKNOWN_SCHEMA_VERSION == Ascii("unknown_schema_version")
    ensures STATUS_CODE_HEADER == Ascii("status_code") && UNKNOWN_STATUS_CODE == Ascii("unknown_status_code")
    ensures STATUS_CODE_PREFIX == Ascii("status_code=")
  {
  }

  /** The identifier by topic and version: the schema name, the delimiter, the schema version. */
  lemma TopicVersionId(r: Record, name: Bytes, version: Bytes)
    requires Says(r, SCHEMA_NAME_HEADER, UNKNOWN_SCHEMA_NAME, name)
    requires Says(r, SCHEMA_VERSION_HEADER, UNKNOWN_SCHEMA_VERSION, version)
    ensures StreamIdOf(TopicVersion, r).name == name + [DELIMITER] + version
    ensures DELIMITER !in name && DELIMITER !in version ==> Split(StreamIdOf(TopicVersion, r).name, DELIMITER) == [name, version]
  {
    LookupSays(r, SCHEMA_NAME_HEADER, UNKNOWN_SCHEMA_NAME, name);
    LookupSays(r, SCHEMA_VERSION_HEADER, UNKNOWN_SCHEMA_VERSION, version);
    TwoParts(name, version);
    SplitJoin([name, version], DELIMITER);
  }

  lemma PrefixIsFree()
    ensures DELIMITER !in STATUS_CODE_PREFIX
  {
  }

  /** The identifier of a dead letter: the topic, the schema name, the schema version and the status code. */
  lemma DlqId(r: Record, name: Bytes, version: Bytes, status: Bytes)
    requires Says(r, SCHEMA_NAME_HEADER, UNKNOWN_SCHEMA_NAME, name)
    requires Says(r, SCHEMA_VERSION_HEADER, UNKNOWN_SCHEMA_VERSION, version)
    requires Says(r, STATUS_CODE_HEADER, UNKNOWN_STATUS_CODE, status)
    ensures var last := STATUS_CODE_PREFIX + status;
            && StreamIdOf(Dlq, r).name == r.topic + [DELIMITER] + name + [DELIMITER] + version + [DELIMITER] + last
            && (DELIMITER !in r.topic && DELIMITER !in name && DELIMITER !in version && DELIMITER !in status ==>
                  Split(StreamIdOf(Dlq, r).name, DELIMITER) == [r.topic, name, version, last])
  {
    LookupSays(r, SCHEMA_NAME_HEADER, UNKNOWN_SCHEMA_NAME, name);
    LookupSays(r, SCHEMA_VERSION_HEADER, UNKNOWN_SCHEMA_VERSION, version);
    LookupSays(r, STATUS_CODE_HEADER, UNKNOWN_STATUS_CODE, status);
    var last := STATUS_CODE_PREFIX + status;
    PrefixIsFree();
    FourParts(r.topic, name, version, last);
    SplitJoin([r.topic, name, version, last], DELIMITER);
  }

  /** Splitting an identifier gives back its components exactly when no component holds the delimiter. */
  lemma IdDecodes(strategy: RouterStrategy, r: Record)
    ensures Split(StreamIdOf(strategy, r).name, DELIMITER) == Components(strategy, r)
            <==> Free(Components(strategy, r), DELIMITER)
  {
    SplitJoin(Components(strategy, r), DELIMITER);
  }

  /** Between delimiter-free records, two identifiers agree exactly when the strategies
      and all the components agree, so the two strategies never share an identifier. */
  lemma IdsDistinguish(s1: RouterStrategy, r1: Record, s2: RouterStrategy, r2: Record)
    requires Free(Components(s1, r1), DELIMITER) && Free(Components(s2, r2), DELIMITER)
    ensures StreamIdOf(s1, r1) == StreamIdOf(s2, r2) <==> s1 == s2 && Components(s1, r1) == Components(s2, r2)
  {
    IdDecodes(s1, r1);
    IdDecodes(s2, r2);
    assert s1 != s2 ==> |Components(s1, r1)| != |Components(s2, r2)|;
  }

  /** With the delimiter inside a schema name, records of different schemas share an identifier. */
  lemma DelimiterCollides()
    ensures exists r1: Record, r2: Record ::
              && Components(TopicVersion, r1) != Components(TopicVersion, r2)
              && StreamIdOf(TopicVersion, r1) == StreamIdOf(TopicVersion, r2)
  {
    var a, b := [0x61], [0x61, DELIMITER, 0x61];
    var r1 := Record([], 0, 0, None, Some([Header(SCHEMA_NAME_HEADER, Some(b)), Header(SCHEMA_VERSION_HEADER, Some(a))]));
    var r2 := Record([], 0, 0, None, Some([Header(SCHEMA_NAME_HEADER, Some(a)), Header(SCHEMA_VERSION_HEADER, Some(b))]));
    assert ValidUtf8(a) && ValidUtf8(b) by {
      assert b[1..][1..] == a && a[1..] == [];
    }
    assert SCHEMA_NAME_HEADER != SCHEMA_VERSION_HEADER;
    LookupPair(r1, b, a);
    LookupPair(r2, a, b);
    assert Components(TopicVersion, r1) == [b, a] && Components(TopicVersion, r2) == [a, b];
    TwoParts(b, a);
    TwoParts(a, b);
    assert b + [DELIMITER] + a == a + [DELIMITER] + b;
  }

  lemma LookupPair(r: Record, name: Bytes, version: Bytes)
    requires ValidUtf8(name) && name != [] && ValidUtf8(version) && version != []
    requires r.headers == Some([Header(SCHEMA_NAME_HEADER, Some(name)), Header(SCHEMA_VERSION_HEADER, Some(version))])
    ensures HeaderOr(r, SCHEMA_NAME_HEADER, UNKNOWN_SCHEMA_NAME) == name
    ensures HeaderOr(r, SCHEMA_VERSION_HEADER, UNKNOWN_SCHEMA_VERSION) == version
  {
    assert |SCHEMA_NAME_HEADER| != |SCHEMA_VERSION_HEADER|;
    var hs := r.HeaderList();
    assert !Answers(hs[0], SCHEMA_VERSION_HEADER);
    assert hs[1..][0] == hs[1] && Answers(hs[1], SCHEMA_VERSION_HEADER);
    assert FindHeader(hs[1..], SCHEMA_VERSION_HEADER) == Some(version);
  }
}
