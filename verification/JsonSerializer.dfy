/** The printer of record lines: one JSON object a line, the payload under "data", the headers after it. */
module JsonSerializer {
  import opened DataModel
  import opened JsonGrammar

  const NEWLINE: byte := 0x0A

  const OPEN: Bytes := [LBRACE, QUOTE, 0x64, 0x61, 0x74, 0x61, QUOTE, COLON]  // {"data":
  const CLOSE: Bytes := [RBRACE, NEWLINE]
  const HEADER_OPEN: Bytes := [COMMA, QUOTE, 0x78, 0x2D]                      // ,"x-
  const HEADER_MID: Bytes := [QUOTE, COLON, QUOTE]                            // ":"

  predicate IsValidJson(bytes: Bytes) {
    forall b | b in bytes :: !(b == QUOTE || b == BACKSLASH || b < 0x20)
  }

  /** The filter on headers. */
  predicate Kept(h: Header) {
    h.value.Some? && IsValidJson(h.value.value) && IsValidJson(h.key)
  }

  function HeaderText(h: Header): Bytes
    requires Kept(h)
  {
    HEADER_OPEN + (h.key + (HEADER_MID + (h.value.value + [QUOTE])))
  }

  function HeaderSection(hs: seq<Header>): Bytes {
    if hs == [] then []
    else if Kept(hs[0]) then HeaderText(hs[0]) + HeaderSection(hs[1..])
    else HeaderSection(hs[1..])
  }

  function Line(data: Bytes, hs: seq<Header>): Bytes {
    OPEN + (data + (HeaderSection(hs) + CLOSE))
  }

  /** What serializing a record yields: a line, nothing for a null or empty record, or a decoding error. */
  function Serialized(r: Record, decoder: RecordDecoder): (res: Printed)
    ensures res.Ok? && res.value.Some? ==> |res.value.value| >= |OPEN| + |CLOSE| + 1
  {
    if r.payload.None? then Ok(None)
    else
      var data := decoder.DataPayload(r.payload.value);
      if data.None? then Err(Serialization)
      else if data.value == [] then Ok(None)
      else Ok(Some(Line(data.value, r.HeaderList())))
  }

  class JsonSerializer {
    var buf: Bytes

    constructor ()
      ensures buf == []
    {
      buf := [];
    }

    method Serialize(r: Record, decoder: RecordDecoder) returns (res: Result<Option<Bytes>>)
      modifies this
      ensures res == Serialized(r, decoder)
      ensures buf == if r.payload.None? then old(buf)
                     else if res.Ok? && res.value.Some? then res.value.value else []
    {
      if r.payload.None? {
        return Ok(None);
      }
      buf := [];
      var data := decoder.DataPayload(r.payload.value);
      if data.None? {
        return Err(Serialization);
      }
      if data.value == [] {
        return Ok(None);
      }
      buf := buf + OPEN;
      buf := buf + data.value;
      if r.headers.Some? {
        AppendHeaders(r.headers.value);
      }
      buf := buf + CLOSE;
      assert buf == Line(data.value, r.HeaderList());
      return Ok(Some(buf));
    }

    method AppendHeaders(hs: seq<Header>)
      modifies this
      ensures buf == old(buf) + HeaderSection(hs)
    {
      for i := 0 to |hs|
        invariant buf + HeaderSection(hs[i..]) == old(buf) + HeaderSection(hs)
      {
        var h := hs[i];
        assert hs[i..][1..] == hs[i + 1..];
        if h.value.Some? && IsValidJson(h.value.value) && IsValidJson(h.key) {
          AppendHeader(h);
        }
      }
      assert hs[|hs|..] == [];
    }

    method AppendHeader(h: Header)
      requires Kept(h)
      modifies this
      ensures buf == old(buf) + HeaderText(h)
    {
      buf := buf + HEADER_OPEN;
      buf := buf + h.key;
      buf := buf + HEADER_MID;
      buf := buf + h.value.value;
      buf := buf + [QUOTE];
    }
  }

  // ----- round trip of the header section

  /** A JSON string between quotation marks that needs no escapes. */
  predicate PlainString(b: Bytes) {
    IsString([QUOTE] + b + [QUOTE]) && BACKSLASH !in b
  }

  /** The headers to be printed: those with a value, whose key and value are plain strings. */
  function KeptPairs(hs: seq<Header>): seq<(Bytes, Bytes)> {
    if hs == [] then []
    else
      var h := hs[0];
      (if h.value.Some? && PlainString(h.key) && PlainString(h.value.value) then [(h.key, h.value.value)] else [])
      + KeptPairs(hs[1..])
  }

  lemma KeptIsPlain(h: Header)
    ensures Kept(h) <==> h.value.Some? && PlainString(h.key) && PlainString(h.value.value)
  {
    FilterIsExact(h.key);
    if h.value.Some? {
      FilterIsExact(h.value.value);
    }
  }

  /** Headers as they appear on a line. */
  function Shown(pairs: seq<(Bytes, Bytes)>): Bytes {
    if pairs == [] then []
    else HEADER_OPEN + pairs[0].0 + HEADER_MID + pairs[0].1 + [QUOTE] + Shown(pairs[1..])
  }

  lemma Regrouped(a: Bytes, k: Bytes, b: Bytes, v: Bytes, q: Bytes, rest: Bytes)
    ensures a + (k + (b + (v + q))) + rest == a + k + b + v + q + rest
  {
  }

  lemma {:induction false} SectionIsShown(hs: seq<Header>)
    ensures HeaderSection(hs) == Shown(KeptPairs(hs))
  {
    if hs != [] {
      var h := hs[0];
      KeptIsPlain(h);
      SectionIsShown(hs[1..]);
      if Kept(h) {
        ShownCons((h.key, h.value.value), KeptPairs(hs[1..]));
        Regrouped(HEADER_OPEN, h.key, HEADER_MID, h.value.value, [QUOTE], HeaderSection(hs[1..]));
      } else {
        assert [] + KeptPairs(hs[1..]) == KeptPairs(hs[1..]);
      }
    }
  }

  lemma ShownCons(pair: (Bytes, Bytes), pairs: seq<(Bytes, Bytes)>)
    ensures Shown([pair] + pairs) == HEADER_OPEN + pair.0 + HEADER_MID + pair.1 + [QUOTE] + Shown(pairs)
  {
    assert ([pair] + pairs)[1..] == pairs;
  }

  /** The fixed parts of a line. */
  lemma LineNames()
    ensures OPEN == Ascii("{\"data\":") && CLOSE == Ascii("}\n")
    ensures HEADER_OPEN == Ascii(",\"x-") && HEADER_MID == Ascii("\":\"") && [QUOTE] == Ascii("\"")
  {
  }

  /** A line, written out: the data payload, the headers the filter keeps, in order, and a newline. */
  lemma LineIs(data: Bytes, hs: seq<Header>)
    ensures Line(data, hs) == Ascii("{\"data\":") + data + Shown(KeptPairs(hs)) + Ascii("}\n")
  {
    SectionIsShown(hs);
    LineNames();
    LeftAssoc(OPEN, data, HeaderSection(hs), CLOSE);
  }

  lemma LeftAssoc(a: Bytes, b: Bytes, c: Bytes, d: Bytes)
    ensures a + (b + (c + d)) == a + b + c + d
  {
  }

  // ----- the outcomes of serializing

  /** The data payload that a raw payload holds: schema-framed ones start with a zero byte and four more bytes. */
  predicate Decodes(decoder: RecordDecoder, payload: Bytes, data: Bytes) {
    match decoder
    case JsonSchemaDecoder => |payload| >= 5 && payload[0] == 0 && data == payload[5..]
    case JsonStringDecoder => data == payload
  }

  /** Serializing skips a record exactly when it has no payload or the payload decodes to nothing, fails exactly when
      there is a payload that does not decode, and otherwise prints the decoded data and the headers. */
  lemma SerializedOutcomes(r: Record, decoder: RecordDecoder)
    ensures var res := Serialized(r, decoder);
            && (res == Ok(None) <==> r.payload.None? || Decodes(decoder, r.payload.value, []))
            && (res == Err(Serialization) <==>
                  r.payload.Some? && forall data :: !Decodes(decoder, r.payload.value, data))
            && (forall data | r.payload.Some? && Decodes(decoder, r.payload.value, data) && data != [] ::
                  res == Ok(Some(Line(data, r.HeaderList()))))
            && (res.Err? ==> res.error == Serialization)
  {
    if r.payload.Some? {
      var payload := r.payload.value;
      assert Decodes(JsonStringDecoder, payload, payload);
      assert |payload| >= 5 && payload[0] == 0 ==> Decodes(JsonSchemaDecoder, payload, payload[5..]);
    }
  }

  /** Length of the text up to the next quotation mark. */
  function UpToQuote(s: Bytes): (n: nat)
    ensures n <= |s| && QUOTE !in s[..n] && (n < |s| ==> s[n] == QUOTE)
  {
    if s == [] || s[0] == QUOTE then 0 else 1 + UpToQuote(s[1..])
  }

  /** Reads one header: its key, its value and the text after it. */
  function ParseOne(s: Bytes): (res: Option<(Bytes, Bytes, Bytes)>)
    ensures res.Some? ==> |res.value.2| < |s|
  {
    if !(HEADER_OPEN <= s) then None
    else
      var s1 := s[|HEADER_OPEN|..];
      var n := UpToQuote(s1);
      if !(HEADER_MID <= s1[n..]) then None
      else
        var s2 := s1[n..][|HEADER_MID|..];
        var m := UpToQuote(s2);
        if m == |s2| then None else Some((s1[..n], s2[..m], s2[m + 1..]))
  }

  /** A reader of what follows the payload on a line: the headers, then the closing brace and newline. */
  function ParseHeaders(s: Bytes): Option<seq<(Bytes, Bytes)>>
    decreases |s|
  {
    if s == CLOSE then Some([])
    else
      var one := ParseOne(s);
      if one.None? then None
      else
        var rest := ParseHeaders(one.value.2);
        if rest.None? then None else Some([(one.value.0, one.value.1)] + rest.value)
  }

  lemma {:induction false} UpToQuoteIs(p: Bytes, tail: Bytes)
    requires QUOTE !in p && tail != [] && tail[0] == QUOTE
    ensures UpToQuote(p + tail) == |p|
  {
    if p == [] {
      assert p + tail == tail;
    } else {
      assert (p + tail)[1..] == p[1..] + tail;
      UpToQuoteIs(p[1..], tail);
    }
  }

  /** Reading the text after the payload gives back exactly the headers the filter keeps, in order. */
  lemma {:induction false} HeadersRoundTrip(hs: seq<Header>)
    ensures ParseHeaders(HeaderSection(hs) + CLOSE) == Some(KeptPairs(hs))
  {
    if hs == [] {
      assert HeaderSection(hs) + CLOSE == CLOSE;
    } else {
      HeadersRoundTrip(hs[1..]);
      KeptIsPlain(hs[0]);
      if Kept(hs[0]) {
        var section := HeaderSection(hs[1..]);
        ReadOne(hs[0], section + CLOSE);
        Prepend(HeaderText(hs[0]), section, hs[0].key, hs[0].value.value, KeptPairs(hs[1..]));
      } else {
        assert [] + KeptPairs(hs[1..]) == KeptPairs(hs[1..]);
      }
    }
  }

  lemma Prepend(text: Bytes, section: Bytes, k: Bytes, v: Bytes, pairs: seq<(Bytes, Bytes)>)
    requires text + (section + CLOSE) != CLOSE
    requires ParseOne(text + (section + CLOSE)) == Some((k, v, section + CLOSE))
    requires ParseHeaders(section + CLOSE) == Some(pairs)
    ensures ParseHeaders(text + section + CLOSE) == Some([(k, v)] + pairs)
  {
    Assoc(text, section, CLOSE);
  }

  lemma ReadOne(h: Header, rest: Bytes)
    requires Kept(h)
    ensures ParseOne(HeaderText(h) + rest) == Some((h.key, h.value.value, rest))
    ensures HeaderText(h) + rest != CLOSE
  {
    var t2 := [QUOTE] + rest;
    var t1 := HEADER_MID + (h.value.value + t2);
    UpToQuoteIs(h.value.value, t2);
    UpToQuoteIs(h.key, t1);
    Regroup(HEADER_OPEN, h.key, HEADER_MID, h.value.value, rest);
    Cut(HEADER_OPEN, h.key + t1);
    Cut(h.key, t1);
    Cut(HEADER_MID, h.value.value + t2);
    Cut(h.value.value, t2);
    Cut([QUOTE], rest);
    assert (h.value.value + t2)[|h.value.value| + 1..] == t2[1..];
  }

  lemma Assoc(a: Bytes, b: Bytes, c: Bytes)
    ensures (a + b) + c == a + (b + c)
  {
  }

  lemma Cut(p: Bytes, t: Bytes)
    ensures (p + t)[..|p|] == p && (p + t)[|p|..] == t && p <= p + t
  {
  }

  lemma Regroup(o: Bytes, k: Bytes, mid: Bytes, v: Bytes, rest: Bytes)
    ensures o + (k + (mid + (v + [QUOTE]))) + rest == o + (k + (mid + (v + ([QUOTE] + rest))))
  {
    var a, b := v + [QUOTE], v + ([QUOTE] + rest);
    assert a + rest == b;
    assert (mid + a) + rest == mid + b;
    assert (k + (mid + a)) + rest == k + (mid + b);
    assert (o + (k + (mid + a))) + rest == o + (k + (mid + b));
  }

  // ----- well-formedness

  lemma {:induction false} PlainChars(s: Bytes)
    requires BACKSLASH !in s
    ensures IsChars(s) <==> forall b | b in s :: Unescaped(b)
  {
    if s != [] {
      PlainChars(s[1..]);
      assert s == [s[0]] + s[1..];
    }
  }

  /** The filter passes exactly the bytes that make a JSON string, between quotation marks, without escapes. */
  lemma FilterIsExact(bytes: Bytes)
    ensures IsValidJson(bytes) <==> IsString([QUOTE] + bytes + [QUOTE]) && BACKSLASH !in bytes
  {
    var q := [QUOTE] + bytes + [QUOTE];
    assert q[1..|q| - 1] == bytes;
    if BACKSLASH !in bytes {
      PlainChars(bytes);
    }
  }

  /** A kept header is printed as a comma and a member. */
  lemma HeaderMember(h: Header) returns (member: Bytes)
    requires Kept(h)
    ensures IsMember(member) && HeaderText(h) == [COMMA] + member
  {
    var inner := [0x78, 0x2D] + h.key;
    Quoted(inner);
    Quoted(h.value.value);
    var name, text := [QUOTE] + inner + [QUOTE], [QUOTE] + h.value.value + [QUOTE];
    MemberOf(name, text);
    member := name + [COLON] + text;
    HeaderShape(h.key, h.value.value);
  }

  lemma HeaderShape(k: Bytes, v: Bytes)
    ensures HEADER_OPEN + (k + (HEADER_MID + (v + [QUOTE])))
            == [COMMA] + ([QUOTE] + ([0x78, 0x2D] + k) + [QUOTE] + [COLON] + ([QUOTE] + v + [QUOTE]))
  {
  }

  lemma JoinMembers(first: Bytes, member: Bytes, section: Bytes)
    requires IsMember(first) && IsMembers(member + section)
    ensures IsMembers(first + ([COMMA] + member + section))
  {
    MembersCons(first, member + section);
    assert first + ([COMMA] + member + section) == first + [COMMA] + (member + section);
  }

  /** A member followed by the printed headers is a list of members. */
  lemma {:induction false} MembersOfLine(first: Bytes, hs: seq<Header>)
    requires IsMember(first)
    ensures IsMembers(first + HeaderSection(hs))
    decreases |hs|
  {
    if hs == [] {
      assert first + HeaderSection(hs) == first;
    } else if Kept(hs[0]) {
      var member := HeaderMember(hs[0]);
      MembersOfLine(member, hs[1..]);
      JoinMembers(first, member, HeaderSection(hs[1..]));
    } else {
      MembersOfLine(first, hs[1..]);
    }
  }

  const DATA_NAME: Bytes := [QUOTE] + [0x64, 0x61, 0x74, 0x61] + [QUOTE]

  lemma DataName()
    ensures IsName(DATA_NAME) && OPEN[1..] == DATA_NAME + [COLON]
  {
    Quoted([0x64, 0x61, 0x74, 0x61]);
  }

  lemma DataMember(data: Bytes)
    requires IsText(data)
    ensures IsMember(OPEN[1..] + data)
  {
    DataName();
    MemberOf(DATA_NAME, data);
  }

  lemma Braced(members: Bytes)
    requires IsMembers(members)
    ensures IsObject([LBRACE] + members + [RBRACE])
  {
    var s := [LBRACE] + members + [RBRACE];
    assert s[1..|s| - 1] == members;
  }

  lemma LineShape(data: Bytes, section: Bytes)
    ensures OPEN + (data + (section + CLOSE)) == [LBRACE] + (OPEN[1..] + data + section) + [RBRACE] + [NEWLINE]
  {
    assert OPEN == [LBRACE] + OPEN[1..];
    assert CLOSE == [RBRACE] + [NEWLINE];
  }

  /** When the payload is a JSON text, a line without its newline is a JSON object. */
  lemma LineIsObject(data: Bytes, hs: seq<Header>)
    requires IsText(data)
    ensures IsObject(Line(data, hs)[..|Line(data, hs)| - 1])
  {
    DataMember(data);
    MembersOfLine(OPEN[1..] + data, hs);
    Braced(OPEN[1..] + data + HeaderSection(hs));
    LineShape(data, HeaderSection(hs));
  }

  // ----- framing

  lemma {:induction false} SectionHasNoNewline(hs: seq<Header>)
    ensures NEWLINE !in HeaderSection(hs)
  {
    if hs != [] {
      SectionHasNoNewline(hs[1..]);
      if Kept(hs[0]) {
        assert NEWLINE !in HEADER_OPEN && NEWLINE !in HEADER_MID;
      }
    }
  }

  /** A line holds a newline before its last byte exactly when its payload does. */
  lemma LineFraming(data: Bytes, hs: seq<Header>)
    ensures NEWLINE in Line(data, hs)[..|Line(data, hs)| - 1] <==> NEWLINE in data
    ensures Line(data, hs) == Line(data, hs)[..|Line(data, hs)| - 1] + [NEWLINE]
  {
    SectionHasNoNewline(hs);
    LineShape(data, HeaderSection(hs));
    assert NEWLINE !in OPEN[1..];
  }
}
