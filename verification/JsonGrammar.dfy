/** The grammar of JSON texts (sections 2 to 7 of RFC 8259), read at byte level. */
module JsonGrammar {
  import opened DataModel

  const QUOTE: byte := 0x22
  const BACKSLASH: byte := 0x5C
  const COMMA: byte := 0x2C
  const COLON: byte := 0x3A
  const LBRACE: byte := 0x7B
  const RBRACE: byte := 0x7D
  const LBRACKET: byte := 0x5B
  const RBRACKET: byte := 0x5D

  predicate IsWs(s: Bytes) {
    forall b | b in s :: b == 0x20 || b == 0x09 || b == 0x0A || b == 0x0D
  }

  predicate Digits(s: Bytes) { s != [] && forall b | b in s :: 0x30 <= b <= 0x39 }

  predicate Hex(b: byte) { 0x30 <= b <= 0x39 || 0x41 <= b <= 0x46 || 0x61 <= b <= 0x66 }

  /** A byte that may stand for itself between quotation marks. */
  predicate Unescaped(b: byte) { b >= 0x20 && b != QUOTE && b != BACKSLASH }

  /** The characters between the quotation marks of a string (section 7). */
  predicate IsChars(s: Bytes) {
    if s == [] then true
    else if s[0] == BACKSLASH then
      && |s| >= 2
      && if s[1] == 0x75 /* u */
         then |s| >= 6 && Hex(s[2]) && Hex(s[3]) && Hex(s[4]) && Hex(s[5]) && IsChars(s[6..])
         else s[1] in [QUOTE, BACKSLASH, 0x2F, 0x62, 0x66, 0x6E, 0x72, 0x74] && IsChars(s[2..])
    else Unescaped(s[0]) && IsChars(s[1..])
  }

  predicate IsString(s: Bytes) {
    |s| >= 2 && s[0] == QUOTE && s[|s| - 1] == QUOTE && IsChars(s[1..|s| - 1])
  }

  predicate IsInteger(s: Bytes) {
    var t := if s != [] && s[0] == 0x2D /* - */ then s[1..] else s;
    Digits(t) && (|t| > 1 ==> t[0] != 0x30)
  }

  predicate IsFraction(s: Bytes) { s == [] || (s[0] == 0x2E /* . */ && Digits(s[1..])) }

  predicate IsExponent(s: Bytes) {
    || s == []
    || (&& |s| >= 2 && (s[0] == 0x65 || s[0] == 0x45)
        && Digits(if s[1] == 0x2B || s[1] == 0x2D then s[2..] else s[1..]))
  }

  predicate IsNumber(s: Bytes) {
    exists i, j | 0 <= i <= j <= |s| :: IsInteger(s[..i]) && IsFraction(s[i..j]) && IsExponent(s[j..])
  }

  predicate IsLiteral(s: Bytes) {
    s == Ascii("false") || s == Ascii("null") || s == Ascii("true")
  }

  predicate IsValue(s: Bytes)
    decreases |s|, 1
  {
    || IsLiteral(s) || IsNumber(s) || IsString(s)
    || IsArray(s) || IsObject(s)
  }

  /** A value with whitespace around it; on its own, a whole JSON text. */
  predicate IsText(s: Bytes)
    decreases |s|, 2
  {
    exists i, j | 0 <= i <= j <= |s| :: IsWs(s[..i]) && IsValue(s[i..j]) && IsWs(s[j..])
  }

  predicate IsArray(s: Bytes)
    decreases |s|, 0
  {
    && |s| >= 2 && s[0] == LBRACKET && s[|s| - 1] == RBRACKET
    && (IsWs(s[1..|s| - 1]) || IsElements(s[1..|s| - 1]))
  }

  predicate IsElements(s: Bytes)
    decreases |s|, 3
  {
    || IsText(s)
    || exists k | 0 <= k < |s| :: s[k] == COMMA && IsText(s[..k]) && IsElements(s[k + 1..])
  }

  predicate IsObject(s: Bytes)
    decreases |s|, 0
  {
    && |s| >= 2 && s[0] == LBRACE && s[|s| - 1] == RBRACE
    && (IsWs(s[1..|s| - 1]) || IsMembers(s[1..|s| - 1]))
  }

  predicate IsMembers(s: Bytes)
    decreases |s|, 3
  {
    || IsMember(s)
    || exists k | 0 <= k < |s| :: s[k] == COMMA && IsMember(s[..k]) && IsMembers(s[k + 1..])
  }

  predicate IsName(s: Bytes) {
    exists i, j | 0 <= i <= j <= |s| :: IsWs(s[..i]) && IsString(s[i..j]) && IsWs(s[j..])
  }

  predicate IsMember(s: Bytes)
    decreases |s|, 2
  {
    exists k | 0 <= k < |s| :: s[k] == COLON && IsName(s[..k]) && IsText(s[k + 1..])
  }

  lemma {:induction false} UnescapedChars(s: Bytes)
    requires forall b | b in s :: Unescaped(b)
    ensures IsChars(s)
  {
    if s != [] {
      assert Unescaped(s[0]);
      UnescapedChars(s[1..]);
    }
  }

  /** Quoted text that needs no escaping is a string, and so a name and a text. */
  lemma Quoted(s: Bytes)
    requires forall b | b in s :: Unescaped(b)
    ensures IsString([QUOTE] + s + [QUOTE])
    ensures IsName([QUOTE] + s + [QUOTE]) && IsText([QUOTE] + s + [QUOTE])
  {
    var q := [QUOTE] + s + [QUOTE];
    UnescapedChars(s);
    assert q[1..|q| - 1] == s;
    assert q[..0] == [] && q[0..|q|] == q && q[|q|..] == [];
    assert IsWs(q[..0]) && IsString(q[0..|q|]) && IsValue(q[0..|q|]) && IsWs(q[|q|..]);
  }

  lemma MemberOf(name: Bytes, text: Bytes)
    requires IsName(name) && IsText(text)
    ensures IsMember(name + [COLON] + text)
  {
    var s := name + [COLON] + text;
    assert s[..|name|] == name && s[|name| + 1..] == text && s[|name|] == COLON;
  }

  lemma MembersCons(member: Bytes, members: Bytes)
    requires IsMember(member) && IsMembers(members)
    ensures IsMembers(member + [COMMA] + members)
  {
    var s := member + [COMMA] + members;
    assert s[..|member|] == member && s[|member| + 1..] == members && s[|member|] == COMMA;
  }
}
