/** Machine words, quotients, remainders and powers of two. */
module Integers {
  import opened Sums

  const I32_MAX: int := 0x7FFF_FFFF
  const I64_MAX: int := 0x7FFF_FFFF_FFFF_FFFF

  /** Lanes of a simdgroup. */
  const LANES := 32

  /** 32-bit two's complement: what a sum, a product or a narrowing cast leaves. */
  function Wrap32(x: int): int { (x + 0x8000_0000) % 0x1_0000_0000 - 0x8000_0000 }

  /** 64-bit two's complement. */
  function Wrap64(x: int): int { (x + 0x8000_0000_0000_0000) % 0x1_0000_0000_0000_0000 - 0x8000_0000_0000_0000 }

  function Pow2(n: nat): nat { if n == 0 then 1 else 2 * Pow2(n - 1) }

  lemma MultipleOutside(d: int, n: int)
    requires n > 0 && d != 0
    ensures d * n >= n || d * n <= -n
  {
    if d > 0 {
      ProductGrows(1, d, n);
    } else {
      ProductGrows(d, -1, n);
    }
  }

  lemma DivUnique(x: int, n: int, q: int, rem: int)
    requires n > 0 && 0 <= rem < n && x == q * n + rem
    ensures x / n == q && x % n == rem
  {
    var d := x / n - q;
    assert d * n == rem - x % n;
    if d != 0 {
      MultipleOutside(d, n);
    }
  }

  lemma SmallRemainder(a: int, n: int)
    requires 0 <= a < n
    ensures a % n == a
  {
  }
}
