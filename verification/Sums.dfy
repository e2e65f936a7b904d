/** Finite sums of reals over an integer range, and the rearrangements every blocked, strided or
    split computation of the kernels relies on. A vector is its entry function; entries outside
    the summed range are never read. */
module Sums {
  type Vec = int -> real
  type Mat = (int, int) -> real

  /** The sum of f over lo..hi, 0 for an empty range. */
  function Sum(lo: int, hi: int, f: Vec): real
    decreases hi - lo
  {
    if hi <= lo then 0.0 else Sum(lo, hi - 1, f) + f(hi - 1)
  }

  /** Row i of a matrix. */
  function Row(m: Mat, i: int): Vec { j => m(i, j) }

  /** Column j of a matrix. */
  function Col(m: Mat, j: int): Vec { i => m(i, j) }

  /** The sums of a matrix's rows over the columns lo..hi. */
  function RowSums(m: Mat, lo: int, hi: int): Vec { i => Sum(lo, hi, Row(m, i)) }

  /** The sums of a matrix's columns over the rows lo..hi. */
  function ColSums(m: Mat, lo: int, hi: int): Vec { j => Sum(lo, hi, Col(m, j)) }

  lemma {:induction false} SumEqual(lo: int, hi: int, f: Vec, g: Vec)
    requires forall i :: lo <= i < hi ==> f(i) == g(i)
    ensures Sum(lo, hi, f) == Sum(lo, hi, g)
    decreases hi - lo
  {
    if lo < hi {
      SumEqual(lo, hi - 1, f, g);
    }
  }

  lemma SumEmpty(lo: int, f: Vec)
    ensures Sum(lo, lo, f) == 0.0
  {
  }

  lemma SumNext(lo: int, i: int, f: Vec)
    requires lo <= i
    ensures Sum(lo, i + 1, f) == Sum(lo, i, f) + f(i)
  {
  }

  lemma {:induction false} SumZero(lo: int, hi: int, f: Vec)
    requires forall i :: lo <= i < hi ==> f(i) == 0.0
    ensures Sum(lo, hi, f) == 0.0
    decreases hi - lo
  {
    if lo < hi {
      SumZero(lo, hi - 1, f);
    }
  }

  lemma {:induction false} SumSplit(lo: int, mid: int, hi: int, f: Vec)
    requires lo <= mid <= hi
    ensures Sum(lo, hi, f) == Sum(lo, mid, f) + Sum(mid, hi, f)
    decreases hi - mid
  {
    if mid < hi {
      SumSplit(lo, mid, hi - 1, f);
    }
  }

  /** A sum of terms a f + b g. */
  lemma {:induction false} SumLinear(lo: int, hi: int, a: real, f: Vec, b: real, g: Vec, h: Vec)
    requires forall i :: lo <= i < hi ==> h(i) == a * f(i) + b * g(i)
    ensures Sum(lo, hi, h) == a * Sum(lo, hi, f) + b * Sum(lo, hi, g)
    decreases hi - lo
  {
    if lo < hi {
      SumLinear(lo, hi - 1, a, f, b, g, h);
    }
  }

  lemma SumAdd(lo: int, hi: int, f: Vec, g: Vec, h: Vec)
    requires forall i :: lo <= i < hi ==> h(i) == f(i) + g(i)
    ensures Sum(lo, hi, h) == Sum(lo, hi, f) + Sum(lo, hi, g)
  {
    SumLinear(lo, hi, 1.0, f, 1.0, g, h);
  }

  lemma SumScale(lo: int, hi: int, a: real, f: Vec, h: Vec)
    requires forall i :: lo <= i < hi ==> h(i) == a * f(i)
    ensures Sum(lo, hi, h) == a * Sum(lo, hi, f)
  {
    SumLinear(lo, hi, a, f, 0.0, f, h);
  }

  /** A sum over rows of sums over columns, in either order. */
  lemma {:induction false} SumSwap(rlo: int, rhi: int, clo: int, chi: int, m: Mat)
    ensures Sum(rlo, rhi, RowSums(m, clo, chi)) == Sum(clo, chi, ColSums(m, rlo, rhi))
    decreases rhi - rlo
  {
    if rhi <= rlo {
      SumZero(clo, chi, ColSums(m, rlo, rhi));
    } else {
      SumSwap(rlo, rhi - 1, clo, chi, m);
      SumAdd(clo, chi, ColSums(m, rlo, rhi - 1), Row(m, rhi - 1), ColSums(m, rlo, rhi));
    }
  }

  /** Summing by named row and column totals, in either order. */
  lemma SumExchange(rlo: int, rhi: int, rows: Vec, clo: int, chi: int, cols: Vec, m: Mat)
    requires forall i :: rlo <= i < rhi ==> rows(i) == Sum(clo, chi, Row(m, i))
    requires forall j :: clo <= j < chi ==> cols(j) == Sum(rlo, rhi, Col(m, j))
    ensures Sum(rlo, rhi, rows) == Sum(clo, chi, cols)
  {
    SumEqual(rlo, rhi, rows, RowSums(m, clo, chi));
    SumEqual(clo, chi, cols, ColSums(m, rlo, rhi));
    SumSwap(rlo, rhi, clo, chi, m);
  }

  /** A sum with one term that is not zero. */
  lemma {:induction false} SumOnly(lo: int, hi: int, k: int, f: Vec)
    requires lo <= k < hi
    requires forall i :: lo <= i < hi && i != k ==> f(i) == 0.0
    ensures Sum(lo, hi, f) == f(k)
  {
    SumSplit(lo, k, hi, f);
    SumSplit(k, k + 1, hi, f);
    SumZero(lo, k, f);
    SumZero(k + 1, hi, f);
    assert Sum(k, k + 1, f) == Sum(k, k, f) + f(k);
  }

  lemma {:induction false} SumShift(lo: int, hi: int, d: int, f: Vec, g: Vec)
    requires forall i :: lo <= i < hi ==> g(i) == f(i + d)
    ensures Sum(lo, hi, g) == Sum(lo + d, hi + d, f)
    decreases hi - lo
  {
    if lo < hi {
      SumShift(lo, hi - 1, d, f, g);
    }
  }

  lemma {:induction false} SumNonNegative(lo: int, hi: int, f: Vec)
    requires forall i :: lo <= i < hi ==> f(i) >= 0.0
    ensures Sum(lo, hi, f) >= 0.0
    decreases hi - lo
  {
    if lo < hi {
      SumNonNegative(lo, hi - 1, f);
    }
  }

  /** A sum of terms not below 0 is at least each of them. */
  lemma SumAtLeast(lo: int, hi: int, k: int, f: Vec)
    requires lo <= k < hi
    requires forall i :: lo <= i < hi ==> f(i) >= 0.0
    ensures Sum(lo, hi, f) >= f(k)
  {
    SumSplit(lo, k, hi, f);
    SumSplit(k, k + 1, hi, f);
    SumNonNegative(lo, k, f);
    SumNonNegative(k + 1, hi, f);
    assert Sum(k, k + 1, f) == Sum(k, k, f) + f(k);
  }

  /** The entries of f at the places congruent to r modulo n, counted from base. */
  function Strand(base: int, n: int, r: int, f: Vec): Vec
    requires n > 0
  {
    j => if (j - base) % n == r then f(j) else 0.0
  }

  /** A strided walk: between a place of the strand and the next one lies no other. */
  lemma StrandStep(base: int, n: int, r: int, f: Vec, j: int, hi: int)
    requires n > 0 && 0 <= r < n
    requires base <= j < hi && (j - base) % n == r
    ensures Sum(base, if j + n < hi then j + n else hi, Strand(base, n, r, f))
         == Sum(base, j, Strand(base, n, r, f)) + f(j)
  {
    var g := Strand(base, n, r, f);
    var end := if j + n < hi then j + n else hi;
    SumSplit(base, j, end, g);
    forall i | j < i < end
      ensures g(i) == 0.0
    {
      StrandGap(j - base, i - base, n, r);
    }
    SumOnly(j, end, j, g);
  }

  lemma StrandGap(a: int, b: int, n: int, r: int)
    requires 0 < n && 0 <= a && a % n == r && a < b < a + n
    ensures b % n != r
  {
    if b % n == r {
      NoMultipleBetween(b / n - a / n, n, b - a);
    }
  }

  lemma NoMultipleBetween(d: int, n: int, gap: int)
    requires 0 < gap < n
    ensures d * n != gap
  {
    if d >= 1 {
      assert d * n >= n;
    } else {
      assert d * n <= 0;
    }
  }

  lemma ProductGrows(a: int, b: int, n: int)
    requires a <= b && n >= 0
    ensures a * n <= b * n
  {
  }

  /** Before its first place a strand has nothing. */
  lemma StrandStart(base: int, n: int, r: int, f: Vec, hi: int)
    requires n > 0 && 0 <= r < n && base <= hi <= base + r
    ensures Sum(base, hi, Strand(base, n, r, f)) == 0.0
  {
    SumZero(base, hi, Strand(base, n, r, f));
  }

  /** The strands of all residues together are the whole sum: each place is on exactly one. */
  lemma Strands(base: int, hi: int, n: int, f: Vec, parts: Vec)
    requires n > 0
    requires forall r :: 0 <= r < n ==> parts(r) == Sum(base, hi, Strand(base, n, r, f))
    ensures Sum(0, n, parts) == Sum(base, hi, f)
  {
    var m: Mat := (r, j) => if (j - base) % n == r then f(j) else 0.0;
    forall r | 0 <= r < n
      ensures parts(r) == Sum(base, hi, Row(m, r))
    {
      SumEqual(base, hi, Strand(base, n, r, f), Row(m, r));
    }
    forall j | base <= j < hi
      ensures f(j) == Sum(0, n, Col(m, j))
    {
      SumOnly(0, n, (j - base) % n, Col(m, j));
    }
    SumExchange(0, n, parts, base, hi, f, m);
  }

  /** Sums over consecutive pieces bounds(0)..bounds(1), bounds(1)..bounds(2), ... join. */
  lemma {:induction false} SumPieces(n: nat, bounds: int -> int, f: Vec, parts: Vec)
    requires forall i :: 0 <= i < n ==> bounds(i) <= bounds(i + 1)
    requires forall i :: 0 <= i < n ==> parts(i) == Sum(bounds(i), bounds(i + 1), f)
    ensures bounds(0) <= bounds(n)
    ensures Sum(0, n, parts) == Sum(bounds(0), bounds(n), f)
    decreases n
  {
    if n > 0 {
      SumPieces(n - 1, bounds, f, parts);
      SumSplit(bounds(0), bounds(n - 1), bounds(n), f);
    }
  }

  lemma {:induction false} SumMonotone(lo: int, hi: int, f: Vec, g: Vec)
    requires forall i :: lo <= i < hi ==> f(i) <= g(i)
    ensures Sum(lo, hi, f) <= Sum(lo, hi, g)
    decreases hi - lo
  {
    if lo < hi {
      SumMonotone(lo, hi - 1, f, g);
    }
  }

  lemma {:induction false} SumOfOnes(lo: int, hi: int, f: Vec)
    requires lo <= hi && forall i :: lo <= i < hi ==> f(i) == 1.0
    ensures Sum(lo, hi, f) == (hi - lo) as real
    decreases hi - lo
  {
    if lo < hi {
      SumOfOnes(lo, hi - 1, f);
    }
  }
}
