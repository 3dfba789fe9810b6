/** Fixed-width integers and their little-endian, two's-complement byte images. */
module Bytes {

  type byte = x: int | 0 <= x < 0x100
  type uint16 = x: int | 0 <= x < 0x1_0000
  type uint32 = x: int | 0 <= x < 0x1_0000_0000
  type int32 = x: int | -0x8000_0000 <= x < 0x8000_0000
  type int64 = x: int | -0x8000_0000_0000_0000 <= x < 0x8000_0000_0000_0000

  const INT64_MAX: int := 0x7FFF_FFFF_FFFF_FFFF

  predicate IsInt64(x: int) {
    -INT64_MAX - 1 <= x <= INT64_MAX
  }

  datatype Option<+T> = None | Some(value: T)

  // `lo | hi << 8`: the shifted bytes have no bit in common, so the union is a sum.
  function U16(lo: byte, hi: byte): uint16 {
    lo + 0x100 * hi
  }

  function U32(b0: byte, b1: byte, b2: byte, b3: byte): uint32 {
    b0 + 0x100 * b1 + 0x1_0000 * b2 + 0x100_0000 * b3
  }

  function Le16(n: uint16): seq<byte> {
    [n % 0x100, n / 0x100]
  }

  function Le32(n: uint32): seq<byte> {
    [n % 0x100, n / 0x100 % 0x100, n / 0x1_0000 % 0x100, n / 0x100_0000]
  }

  // The conversions between int32_t and uint32_t.
  function AsInt32(u: uint32): int32 {
    if u < 0x8000_0000 then u else u - 0x1_0000_0000
  }

  function AsUint32(i: int32): uint32 {
    if i < 0 then i + 0x1_0000_0000 else i
  }

  function Int32At(b: seq<byte>, i: nat): int32
    requires i + 4 <= |b|
  {
    AsInt32(U32(b[i], b[i + 1], b[i + 2], b[i + 3]))
  }

  function LeInt32(i: int32): seq<byte> {
    Le32(AsUint32(i))
  }

  // The eight bytes of an int64_t in memory, as its low and high halves.
  function Low(n: int64): uint32 {
    n % 0x1_0000_0000
  }

  function High(n: int64): int32 {
    n / 0x1_0000_0000
  }

  function LeInt64(n: int64): seq<byte> {
    Le32(Low(n)) + LeInt32(High(n))
  }

  // The int64_t read from the memory of two adjacent int32_t words.
  function Int64OfWords(lo: int32, hi: int32): int64 {
    AsUint32(lo) + 0x1_0000_0000 * hi
  }

  lemma Le16OfU16(lo: byte, hi: byte)
    ensures Le16(U16(lo, hi)) == [lo, hi]
  {
  }

  lemma Le32OfU32(b0: byte, b1: byte, b2: byte, b3: byte)
    ensures Le32(U32(b0, b1, b2, b3)) == [b0, b1, b2, b3]
  {
    var n := U32(b0, b1, b2, b3);
    assert n % 0x100 == b0 && n / 0x100 == b1 + 0x100 * (b2 + 0x100 * b3);
    assert n / 0x1_0000 == b2 + 0x100 * b3;
    assert n / 0x100_0000 == b3;
  }

  lemma U32OfLe32(n: uint32)
    ensures var b := Le32(n); U32(b[0], b[1], b[2], b[3]) == n
  {
    assert n == n % 0x100 + 0x100 * (n / 0x100);
    var m := n / 0x100;
    assert m == m % 0x100 + 0x100 * (m / 0x100);
    assert n / 0x1_0000 == m / 0x100;
    var k := m / 0x100;
    assert k == k % 0x100 + 0x100 * (k / 0x100);
    assert n / 0x100_0000 == k / 0x100;
  }

  /** A word in memory counts its bytes in powers of 256, lowest first, and is negative from 2^31 on. */
  lemma WordValue(b: seq<byte>, i: nat)
    requires i + 4 <= |b|
    ensures var n := b[i] as int + 256 * b[i + 1] as int + 65536 * b[i + 2] as int + 16777216 * b[i + 3] as int;
            Int32At(b, i) == if n < 2147483648 then n else n - 4294967296
  {
  }

  /** So does an eight-byte one. */
  lemma LongValue(n: int64)
    ensures |LeInt64(n)| == 8
    ensures var b := LeInt64(n);
            var low := b[0] as int + 256 * b[1] as int + 65536 * b[2] as int + 16777216 * b[3] as int;
            var high := b[4] as int + 256 * b[5] as int + 65536 * b[6] as int + 16777216 * b[7] as int;
            low + 4294967296 * high == if n >= 0 then n else n + 18446744073709551616
  {
    U32OfLe32(Low(n));
    U32OfLe32(AsUint32(High(n)));
    assert n == Low(n) + 0x1_0000_0000 * High(n);
  }

  /** A signed word survives its byte image, wherever the image stands. */
  lemma WordAt(pre: seq<byte>, w: int32, post: seq<byte>)
    ensures Int32At(pre + LeInt32(w) + post, |pre|) == w
  {
    U32OfLe32(AsUint32(w));
    var s, k, b := pre + LeInt32(w) + post, |pre|, LeInt32(w);
    assert s[k] == b[0] && s[k + 1] == b[1] && s[k + 2] == b[2] && s[k + 3] == b[3];
  }

  /** Four bytes survive being read as a signed word. */
  lemma BytesAt(s: seq<byte>, i: nat)
    requires i + 4 <= |s|
    ensures LeInt32(Int32At(s, i)) == s[i..i + 4]
  {
    var u := U32(s[i], s[i + 1], s[i + 2], s[i + 3]);
    assert AsUint32(AsInt32(u)) == u;
    Le32OfU32(s[i], s[i + 1], s[i + 2], s[i + 3]);
  }

  lemma HalvesOfWords(lo: int32, hi: int32)
    ensures Low(Int64OfWords(lo, hi)) == AsUint32(lo) && High(Int64OfWords(lo, hi)) == hi
  {
  }

  /** Two words in memory are the bytes of the int64_t they are read as. */
  lemma LeInt64OfWords(lo: int32, hi: int32)
    ensures LeInt64(Int64OfWords(lo, hi)) == LeInt32(lo) + LeInt32(hi)
  {
    HalvesOfWords(lo, hi);
  }

  /** An int64_t copied byte by byte into two signed words is read back unchanged. */
  lemma Int64ThroughWords(n: int64)
    ensures |LeInt64(n)| == 8
    ensures Int64OfWords(Int32At(LeInt64(n), 0), Int32At(LeInt64(n), 4)) == n
  {
    var lo := AsInt32(Low(n));
    assert LeInt64(n) == [] + LeInt32(lo) + LeInt32(High(n)) == LeInt32(lo) + LeInt32(High(n)) + [];
    WordAt([], lo, LeInt32(High(n)));
    WordAt(LeInt32(lo), High(n), []);
    assert n == Low(n) + 0x1_0000_0000 * High(n);
  }
}
