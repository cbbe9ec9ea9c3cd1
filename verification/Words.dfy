/** Machine words: bytes, 32-bit wrap-around and the little-endian layout of KCP headers. */
module Words {

  newtype byte = x: int | 0 <= x < 256

  const TWO16: int := 0x1_0000
  const TWO31: int := 0x8000_0000
  const TWO32: int := 0x1_0000_0000

  /** Truncation of an integer to uint32. */
  function U32(x: int): (r: int)
    ensures 0 <= r < TWO32
    ensures 0 <= x < TWO32 ==> r == x
  {
    x % TWO32
  }

  /** Truncation of an integer to int32 (two's complement). */
  function S32(x: int): (r: int)
    ensures -TWO31 <= r < TWO31
    ensures -TWO31 <= x < TWO31 ==> r == x
  {
    var u := x % TWO32;
    if u < TWO31 then u else u - TWO32
  }

  /** Go's integer division, which truncates toward zero. */
  function QuotTrunc(x: int, d: int): int
    requires d > 0
  {
    if x >= 0 then x / d else -((-x) / d)
  }

  function Min(a: int, b: int): int { if a < b then a else b }

  function Max(a: int, b: int): int { if a > b then a else b }

  /** The signed distance between two uint32 counters, as `timeDiff` computes it. */
  function TimeDiff(later: int, earlier: int): int { S32(later - earlier) }

  /** Counters truncated to 32 bits keep their order as long as they are less than 2^31 apart. */
  lemma TimeDiffExact(a: int, b: int)
    requires -TWO31 <= a - b < TWO31
    ensures TimeDiff(U32(a), U32(b)) == a - b
  {
    var qa, qb := a / TWO32, b / TWO32;
    assert U32(a) - U32(b) == (a - b) - (qa - qb) * TWO32;
    S32Period(a - b, qb - qa);
  }

  lemma S32Period(x: int, k: int)
    ensures S32(x + k * TWO32) == S32(x)
  {
    ModPeriod(x, k);
  }

  lemma ModPeriod(x: int, k: int)
    ensures (x + k * TWO32) % TWO32 == x % TWO32
  {
    var q, r := x / TWO32, x % TWO32;
    assert x + k * TWO32 == (q + k) * TWO32 + r;
  }

  lemma U32Absorbs(a: int, b: int)
    ensures U32(U32(a) + b) == U32(a + b)
    ensures U32(U32(a) - b) == U32(a - b)
    ensures U32(a - U32(b)) == U32(a - b)
  {
    ModPeriod(a + b, -(a / TWO32));
    ModPeriod(a - b, -(a / TWO32));
    ModPeriod(a - b, b / TWO32);
  }

  /** Little-endian encodings of 16 and 32 bits. */
  function Le16(x: int): (s: seq<byte>)
    requires 0 <= x < TWO16
    ensures |s| == 2
  {
    [(x % 256) as byte, (x / 256) as byte]
  }

  function Le32(x: int): (s: seq<byte>)
    requires 0 <= x < TWO32
    ensures |s| == 4
  {
    Le16(x % TWO16) + Le16(x / TWO16)
  }

  function FromLe16(s: seq<byte>): (x: int)
    requires |s| == 2
    ensures 0 <= x < TWO16
  {
    s[0] as int + 256 * (s[1] as int)
  }

  function FromLe32(s: seq<byte>): (x: int)
    requires |s| == 4
    ensures 0 <= x < TWO32
  {
    FromLe16(s[..2]) + TWO16 * FromLe16(s[2..])
  }

  lemma Le16RoundTrip(x: int)
    requires 0 <= x < TWO16
    ensures FromLe16(Le16(x)) == x
  {
  }

  lemma Le32RoundTrip(x: int)
    requires 0 <= x < TWO32
    ensures FromLe32(Le32(x)) == x
  {
    var s := Le32(x);
    assert s[..2] == Le16(x % TWO16);
    assert s[2..] == Le16(x / TWO16);
    Le16RoundTrip(x % TWO16);
    Le16RoundTrip(x / TWO16);
  }
}
