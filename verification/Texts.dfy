/**
 Texts as the relay sees them: sequences of Unicode code points, lone surrogates included,
 with the UTF-8 length of each code point (section 3 of RFC 3629) and the part text rules.
 */
module Texts {

  /** A code point, as one element of a Python string: surrogates are code points too. */
  type CodePoint = c: int | 0 <= c <= 0x10FFFF

  type Text = seq<CodePoint>

  const PART_TEXT_MAXIMUM_BYTES := 104
  const MAXIMUM_PART_COUNT := 10

  function Chars(s: string): (t: Text)
    ensures |t| == |s|
    ensures forall i | 0 <= i < |s| :: t[i] == s[i] as int
  {
    seq(|s|, i requires 0 <= i < |s| => s[i] as int)
  }

  predicate IsSurrogate(c: CodePoint) {
    0xD800 <= c <= 0xDFFF
  }

  /** C0, DEL and C1. */
  predicate IsControl(c: CodePoint) {
    c <= 0x1F || 0x7F <= c <= 0x9F
  }

  /** Tab, line feed, and every scalar value that is no control character. */
  predicate IsAllowedInPartText(c: CodePoint) {
    c == 9 || c == 10 || (!IsControl(c) && !IsSurrogate(c))
  }

  /** Bytes of one code point in UTF-8; a surrogate has no encoding and counts as the three its range would take. */
  function Utf8Length(c: CodePoint): (n: nat)
    ensures 1 <= n <= 4
  {
    if c < 0x80 then 1 else if c < 0x800 then 2 else if c < 0x1_0000 then 3 else 4
  }

  function Utf8Bytes(t: Text): (n: nat)
    ensures |t| <= n <= 4 * |t|
  {
    if t == [] then 0 else Utf8Length(t[0]) + Utf8Bytes(t[1..])
  }

  lemma {:induction false} Utf8BytesConcat(a: Text, b: Text)
    ensures Utf8Bytes(a + b) == Utf8Bytes(a) + Utf8Bytes(b)
  {
    if a == [] {
      assert a + b == b;
    } else {
      assert (a + b)[1..] == a[1..] + b;
      Utf8BytesConcat(a[1..], b);
    }
  }

  predicate AllAllowed(t: Text) {
    forall i | 0 <= i < |t| :: IsAllowedInPartText(t[i])
  }

  /** 1 to 104 bytes of scalar values, no control character but tab and line feed. */
  predicate IsValidPartText(t: Text) {
    AllAllowed(t) && 1 <= Utf8Bytes(t) <= PART_TEXT_MAXIMUM_BYTES
  }

  /** Joining part texts in order, as accepting a message does. */
  function Join(parts: seq<Text>): (t: Text) {
    if parts == [] then [] else parts[0] + Join(parts[1..])
  }

  lemma {:induction false} JoinConcat(a: seq<Text>, b: seq<Text>)
    ensures Join(a + b) == Join(a) + Join(b)
  {
    if a == [] {
      assert a + b == b;
    } else {
      assert (a + b)[1..] == a[1..] + b;
      JoinConcat(a[1..], b);
    }
  }
}
