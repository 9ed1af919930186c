/** UTF-8 (section 3 of RFC 3629) as an encoding of Unicode scalar values, against which the validity test of the
    router is measured. */
module Utf8 {
  import opened DataModel

  /** A Unicode scalar value: a code point that is not a surrogate. */
  predicate IsScalar(c: int) { 0 <= c < 0xD800 || 0xE000 <= c <= 0x10FFFF }

  function Tail(x: int): byte
    requires 0 <= x < 64
  {
    (0x80 + x) as byte
  }

  function Encode(c: int): (s: Bytes)
    requires IsScalar(c)
    ensures s != []
  {
    if c < 0x80 then [c as byte]
    else if c < 0x800 then [(0xC0 + c / 64) as byte, Tail(c % 64)]
    else if c < 0x1_0000 then [(0xE0 + c / 4096) as byte, Tail(c / 64 % 64), Tail(c % 64)]
    else [(0xF0 + c / 262144) as byte, Tail(c / 4096 % 64), Tail(c / 64 % 64), Tail(c % 64)]
  }

  predicate AllScalar(cs: seq<int>) { forall c | c in cs :: IsScalar(c) }

  function EncodeAll(cs: seq<int>): Bytes
    requires AllScalar(cs)
  {
    if cs == [] then [] else Encode(cs[0]) + EncodeAll(cs[1..])
  }

  /** Bytes are UTF-8 when they encode some text. */
  ghost predicate IsUtf8(s: Bytes) {
    exists cs :: AllScalar(cs) && EncodeAll(cs) == s
  }

  predicate Continuation(b: byte) { 0x80 <= b <= 0xBF }

  /** The byte patterns of well-formed UTF-8 (section 4 of RFC 3629). */
  predicate ValidUtf8(s: Bytes) {
    if s == [] then true
    else if s[0] <= 0x7F then ValidUtf8(s[1..])
    else if 0xC2 <= s[0] <= 0xDF then
      |s| >= 2 && Continuation(s[1]) && ValidUtf8(s[2..])
    else if 0xE0 <= s[0] <= 0xEF then
      && |s| >= 3 && Continuation(s[1]) && Continuation(s[2])
      && (s[0] == 0xE0 ==> s[1] >= 0xA0) && (s[0] == 0xED ==> s[1] <= 0x9F)
      && ValidUtf8(s[3..])
    else if 0xF0 <= s[0] <= 0xF4 then
      && |s| >= 4 && Continuation(s[1]) && Continuation(s[2]) && Continuation(s[3])
      && (s[0] == 0xF0 ==> s[1] >= 0x90) && (s[0] == 0xF4 ==> s[1] <= 0x8F)
      && ValidUtf8(s[4..])
    else false
  }

  lemma EncodedValid(c: int, rest: Bytes)
    requires IsScalar(c) && ValidUtf8(rest)
    ensures ValidUtf8(Encode(c) + rest)
  {
    var e := Encode(c);
    var s := e + rest;
    assert s[|e|..] == rest && s[0] == e[0];
    if 0x80 <= c < 0x800 {
      assert s[1] == e[1] && 0xC2 <= e[0] <= 0xDF;
    } else if 0x800 <= c < 0x1_0000 {
      assert s[1] == e[1] && s[2] == e[2] && 0xE0 <= e[0] <= 0xEF;
    } else if 0x1_0000 <= c {
      assert s[1] == e[1] && s[2] == e[2] && s[3] == e[3] && 0xF0 <= e[0] <= 0xF4;
    }
  }

  lemma {:induction false} AllValid(cs: seq<int>)
    requires AllScalar(cs)
    ensures ValidUtf8(EncodeAll(cs))
  {
    if cs != [] {
      assert cs[0] in cs && forall c | c in cs[1..] :: c in cs;
      AllValid(cs[1..]);
      EncodedValid(cs[0], EncodeAll(cs[1..]));
    }
  }

  lemma TwoBytes(b0: byte, b1: byte) returns (c: int)
    requires 0xC2 <= b0 <= 0xDF && Continuation(b1)
    ensures IsScalar(c) && Encode(c) == [b0, b1]
  {
    var x, y := b0 as int - 0xC0, b1 as int - 0x80;
    c := x * 64 + y;
    assert c / 64 == x && c % 64 == y;
  }

  lemma ThreeBytes(b0: byte, b1: byte, b2: byte) returns (c: int)
    requires 0xE0 <= b0 <= 0xEF && Continuation(b1) && Continuation(b2)
    requires (b0 == 0xE0 ==> b1 >= 0xA0) && (b0 == 0xED ==> b1 <= 0x9F)
    ensures IsScalar(c) && Encode(c) == [b0, b1, b2]
  {
    var x, y, z := b0 as int - 0xE0, b1 as int - 0x80, b2 as int - 0x80;
    c := x * 4096 + y * 64 + z;
    assert c / 4096 == x && c / 64 == x * 64 + y && c % 64 == z;
  }

  lemma FourBytes(b0: byte, b1: byte, b2: byte, b3: byte) returns (c: int)
    requires 0xF0 <= b0 <= 0xF4 && Continuation(b1) && Continuation(b2) && Continuation(b3)
    requires (b0 == 0xF0 ==> b1 >= 0x90) && (b0 == 0xF4 ==> b1 <= 0x8F)
    ensures IsScalar(c) && Encode(c) == [b0, b1, b2, b3]
  {
    var x, y, z, u := b0 as int - 0xF0, b1 as int - 0x80, b2 as int - 0x80, b3 as int - 0x80;
    c := x * 262144 + y * 4096 + z * 64 + u;
    assert c / 262144 == x && c / 4096 == x * 64 + y && c / 64 == x * 4096 + y * 64 + z && c % 64 == u;
  }

  /** The first scalar value of well-formed bytes. */
  lemma FirstScalar(s: Bytes) returns (c: int, n: nat)
    requires ValidUtf8(s) && s != []
    ensures IsScalar(c) && 0 < n <= |s| && Encode(c) == s[..n] && ValidUtf8(s[n..])
  {
    if s[0] <= 0x7F {
      c, n := s[0] as int, 1;
    } else if s[0] <= 0xDF {
      c := TwoBytes(s[0], s[1]);
      n := 2;
    } else if s[0] <= 0xEF {
      c := ThreeBytes(s[0], s[1], s[2]);
      n := 3;
    } else {
      c := FourBytes(s[0], s[1], s[2], s[3]);
      n := 4;
    }
  }

  lemma {:induction false} ScalarsOf(s: Bytes) returns (cs: seq<int>)
    requires ValidUtf8(s)
    ensures AllScalar(cs) && EncodeAll(cs) == s
    decreases |s|
  {
    if s == [] {
      cs := [];
    } else {
      var c, n := FirstScalar(s);
      var rest := ScalarsOf(s[n..]);
      cs := [c] + rest;
      assert cs[1..] == rest && s == s[..n] + s[n..];
    }
  }

  /** The byte patterns are those of the encoded texts, no more and no less. */
  lemma ValidIsUtf8(s: Bytes)
    ensures ValidUtf8(s) <==> IsUtf8(s)
  {
    if ValidUtf8(s) {
      var cs := ScalarsOf(s);
    }
    if IsUtf8(s) {
      var cs :| AllScalar(cs) && EncodeAll(cs) == s;
      AllValid(cs);
    }
  }
}
