/** Bytes, little-endian numbers and UTF-8, as file formats hold them. */
module Binary {

  type byte = b: int | 0 <= b < 256
  type Bytes = seq<byte>

  function U16(b: Bytes, at: nat): nat
    requires at + 2 <= |b|
  {
    b[at] as nat + 0x100 * (b[at + 1] as nat)
  }

  function U32(b: Bytes, at: nat): nat
    requires at + 4 <= |b|
  {
    U16(b, at) + 0x10000 * U16(b, at + 2)
  }

  function Le16(n: nat): (b: Bytes)
    requires n < 0x10000
    ensures |b| == 2 && U16(b, 0) == n
  {
    [n % 0x100, n / 0x100]
  }

  function Le32(n: nat): (b: Bytes)
    requires n < 0x1_0000_0000
    ensures |b| == 4 && U32(b, 0) == n
  {
    Le16(n % 0x10000) + Le16(n / 0x10000)
  }

  /** A number is written in one way. */
  lemma ReadBack(b: Bytes, at: nat)
    requires at + 4 <= |b|
    ensures U32(b, at) < 0x1_0000_0000 && b[at..at + 4] == Le32(U32(b, at))
  {
    var low, high := U16(b, at), U16(b, at + 2);
    assert low % 0x100 == b[at] && high % 0x100 == b[at + 2];
    assert U32(b, at) % 0x10000 == low && U32(b, at) / 0x10000 == high;
  }

  predicate Continues(b: byte) { 0x80 <= b < 0xC0 }

  /** UTF-8 as section 4 of RFC 3629 defines it, from index `i` on. */
  predicate Utf8From(s: Bytes, i: nat)
    decreases |s| - i
  {
    i >= |s| ||
    if s[i] < 0x80 then Utf8From(s, i + 1)
    else if 0xC2 <= s[i] < 0xE0 then i + 2 <= |s| && Continues(s[i + 1]) && Utf8From(s, i + 2)
    else if 0xE0 <= s[i] < 0xF0 then
      i + 3 <= |s| && Continues(s[i + 1]) && Continues(s[i + 2]) &&
      (s[i] == 0xE0 ==> s[i + 1] >= 0xA0) && (s[i] == 0xED ==> s[i + 1] < 0xA0) && Utf8From(s, i + 3)
    else if 0xF0 <= s[i] < 0xF5 then
      i + 4 <= |s| && Continues(s[i + 1]) && Continues(s[i + 2]) && Continues(s[i + 3]) &&
      (s[i] == 0xF0 ==> s[i + 1] >= 0x90) && (s[i] == 0xF4 ==> s[i + 1] < 0x90) && Utf8From(s, i + 4)
    else false
  }

  predicate IsUtf8(s: Bytes) { Utf8From(s, 0) }
}
