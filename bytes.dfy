/**
 * Big-endian integer fields as the device protocol lays them out in a byte
 * stream: unsigned 16-bit, unsigned 32-bit and two's-complement signed 32-bit
 * reads (the `struct.unpack_from` formats ">H", ">I", ">i") and the matching
 * writes (`struct.pack`).
 */
module Bytes {

  /** One octet of the stream. */
  type byte = b: int | 0 <= b < 0x100

  const TWO_16: int := 0x1_0000
  const TWO_31: int := 0x8000_0000
  const TWO_32: int := 0x1_0000_0000

  /** The values a signed 32-bit field can hold. */
  predicate IsI32(v: int) {
    -TWO_31 <= v < TWO_31
  }

  /** Big-endian unsigned 16-bit value at offset `i`. */
  function U16BE(s: seq<byte>, i: nat): (v: nat)
    requires i + 2 <= |s|
    ensures v < TWO_16
  {
    (s[i] as int) * 0x100 + s[i + 1]
  }

  /** Big-endian unsigned 32-bit value at offset `i`. */
  function U32BE(s: seq<byte>, i: nat): (v: nat)
    requires i + 4 <= |s|
    ensures v < TWO_32
  {
    (((s[i] as int) * 0x100 + s[i + 1]) * 0x100 + s[i + 2]) * 0x100 + s[i + 3]
  }

  /** Big-endian two's-complement signed 32-bit value at offset `i`. */
  function I32BE(s: seq<byte>, i: nat): (v: int)
    requires i + 4 <= |s|
    ensures IsI32(v)
    ensures v < 0 <==> s[i] >= 0x80
    ensures v % TWO_32 == U32BE(s, i)
  {
    var u := U32BE(s, i);
    if u >= TWO_31 then u - TWO_32 else u
  }

  /** Two bytes, most significant first. */
  function EncodeU16BE(v: nat): (r: seq<byte>)
    requires v < TWO_16
    ensures |r| == 2 && U16BE(r, 0) == v
  {
    [v / 0x100, v % 0x100]
  }

  /** Four bytes, most significant first. */
  function EncodeU32BE(v: nat): (r: seq<byte>)
    requires v < TWO_32
    ensures |r| == 4 && U32BE(r, 0) == v
  {
    var b0 := v / 0x100_0000;
    var b1 := (v / 0x1_0000) % 0x100;
    var b2 := (v / 0x100) % 0x100;
    var b3 := v % 0x100;
    assert v / 0x1_0000 == b0 * 0x100 + b1;
    assert v / 0x100 == (v / 0x1_0000) * 0x100 + b2;
    [b0, b1, b2, b3]
  }

  /** Four bytes of the two's-complement representation, most significant first. */
  function EncodeI32BE(v: int): (r: seq<byte>)
    requires IsI32(v)
    ensures |r| == 4 && I32BE(r, 0) == v
  {
    EncodeU32BE(if v < 0 then v + TWO_32 else v)
  }

  /** Reading a 16-bit field and writing it back gives the same two bytes. */
  lemma U16BEInjective(s: seq<byte>, i: nat)
    requires i + 2 <= |s|
    ensures EncodeU16BE(U16BE(s, i)) == s[i..i + 2]
  {
  }

  /** Reading a 32-bit field and writing it back gives the same four bytes. */
  lemma U32BEInjective(s: seq<byte>, i: nat)
    requires i + 4 <= |s|
    ensures EncodeU32BE(U32BE(s, i)) == s[i..i + 4]
  {
    var a, b, c, d := s[i] as int, s[i + 1] as int, s[i + 2] as int, s[i + 3] as int;
    var v := U32BE(s, i);
    assert v / 0x100_0000 == a by {
      assert v == a * 0x100_0000 + (b * 0x1_0000 + c * 0x100 + d);
    }
    assert v / 0x1_0000 == a * 0x100 + b by {
      assert v == (a * 0x100 + b) * 0x1_0000 + (c * 0x100 + d);
    }
    assert v / 0x100 == (a * 0x100 + b) * 0x100 + c;
    assert (a * 0x100 + b) % 0x100 == b;
    assert ((a * 0x100 + b) * 0x100 + c) % 0x100 == c;
  }

  /** Reading a signed 32-bit field and writing it back gives the same four bytes. */
  lemma I32BEInjective(s: seq<byte>, i: nat)
    requires i + 4 <= |s|
    ensures EncodeI32BE(I32BE(s, i)) == s[i..i + 4]
  {
    U32BEInjective(s, i);
  }

  /** A 16-bit field depends only on its own two bytes. */
  lemma U16BEOfSameBytes(s: seq<byte>, t: seq<byte>, i: nat, j: nat)
    requires i + 2 <= |s| && j + 2 <= |t|
    requires s[i] == t[j] && s[i + 1] == t[j + 1]
    ensures U16BE(s, i) == U16BE(t, j)
  {
  }

  /** A 32-bit field depends only on its own four bytes. */
  lemma U32BEOfSameBytes(s: seq<byte>, t: seq<byte>, i: nat, j: nat)
    requires i + 4 <= |s| && j + 4 <= |t|
    requires s[i] == t[j] && s[i + 1] == t[j + 1] && s[i + 2] == t[j + 2] && s[i + 3] == t[j + 3]
    ensures U32BE(s, i) == U32BE(t, j) && I32BE(s, i) == I32BE(t, j)
  {
  }
}
