/** Splitting and joining byte strings on a single delimiter byte. */
module Text {
  import opened DataModel

  function Join(parts: seq<Bytes>, d: byte): Bytes {
    if parts == [] then []
    else if |parts| == 1 then parts[0]
    else parts[0] + [d] + Join(parts[1..], d)
  }

  function Split(s: Bytes, d: byte): (parts: seq<Bytes>)
    ensures parts != []
    ensures forall p | p in parts :: d !in p
  {
    if s == [] then [[]]
    else
      var rest := Split(s[1..], d);
      if s[0] == d then [[]] + rest else [[s[0]] + rest[0]] + rest[1..]
  }

  predicate Free(parts: seq<Bytes>, d: byte) {
    forall p | p in parts :: d !in p
  }

  lemma {:induction false} SplitHead(p: Bytes, tail: Bytes, d: byte)
    requires d !in p
    ensures Split(p + [d] + tail, d) == [p] + Split(tail, d)
    ensures Split(p, d) == [p]
  {
    if p == [] {
      assert p + [d] + tail == [d] + tail;
    } else {
      var s := p + [d] + tail;
      assert s[1..] == p[1..] + [d] + tail;
      SplitHead(p[1..], tail, d);
      assert [p[0]] + p[1..] == p;
    }
  }

  /** Joining is undone by splitting exactly when no part contains the delimiter. */
  lemma {:induction false} SplitJoin(parts: seq<Bytes>, d: byte)
    requires parts != []
    ensures Split(Join(parts, d), d) == parts <==> Free(parts, d)
  {
    if Free(parts, d) {
      SplitOfJoin(parts, d);
    }
  }

  lemma {:induction false} SplitOfJoin(parts: seq<Bytes>, d: byte)
    requires parts != [] && Free(parts, d)
    ensures Split(Join(parts, d), d) == parts
  {
    assert parts[0] in parts;
    if |parts| == 1 {
      SplitHead(parts[0], [], d);
    } else {
      SplitOfJoin(parts[1..], d);
      SplitHead(parts[0], Join(parts[1..], d), d);
    }
  }

  /** Splitting is always undone by joining. */
  lemma {:induction false} JoinSplit(s: Bytes, d: byte)
    ensures Join(Split(s, d), d) == s
  {
    if s != [] {
      JoinSplit(s[1..], d);
      var rest := Split(s[1..], d);
      if s[0] != d {
        assert ([[s[0]] + rest[0]] + rest[1..])[1..] == rest[1..];
      } else {
        assert ([[]] + rest)[1..] == rest;
      }
    }
  }

  /** A last part that itself contains one delimiter counts as two parts. */
  lemma {:induction false} JoinLastTwo(parts: seq<Bytes>, x: Bytes, y: Bytes, d: byte)
    ensures Join(parts + [x + [d] + y], d) == Join(parts + [x, y], d)
  {
    if parts != [] {
      JoinLastTwo(parts[1..], x, y, d);
      assert (parts + [x + [d] + y])[1..] == parts[1..] + [x + [d] + y];
      assert (parts + [x, y])[1..] == parts[1..] + [x, y];
    } else {
      assert [x, y][1..] == [y];
    }
  }

  /** Appending a part appends the delimiter and the part. */
  lemma {:induction false} JoinSnoc(parts: seq<Bytes>, x: Bytes, d: byte)
    requires parts != []
    ensures Join(parts + [x], d) == Join(parts, d) + [d] + x
  {
    if |parts| == 1 {
      assert (parts + [x])[1..] == [x];
    } else {
      JoinSnoc(parts[1..], x, d);
      assert (parts + [x])[1..] == parts[1..] + [x];
    }
  }
}
