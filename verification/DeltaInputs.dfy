/** Queries and keys as they arrive, and as the rule takes them: normalised by the contract's formula,
    and by the chunked pass's fused one. */
module DeltaInputs {
  import opened Sums
  import opened Vectors
  import opened Analysis
  import opened GatedDelta

  /** The epsilon under the square root. */
  const EPS: real := 0.000001

  /** One head's tokens with one column of its values, and the options, the scale resolved. */
  datatype Inputs = Inputs(e: Exponential, sqrt: real -> real, dk: nat, q: Mat, k: Mat, v: Vec, g: Vec, beta: Vec,
                           l2norm: bool, scale: real) {

    /** What is used of the square root: its law. */
    ghost predicate Laws() { e.Laws() && forall y :: y > 0.0 ==> sqrt(y) > 0.0 && sqrt(y) * sqrt(y) == y }

    function Square(row: Vec): real { Sum(0, dk, Times(row, row)) }

    /** 1 / sqrt(sum x^2 + eps). */
    function Inverse(row: Vec): real
      requires Laws()
    {
      SquareNonNegative(dk, row);
      1.0 / sqrt(Square(row) + EPS)
    }

    function KeyScale(t: int): real
      requires Laws()
    {
      if l2norm then Inverse(Row(k, t)) else 1.0
    }

    function QueryScale(t: int): real
      requires Laws()
    {
      if l2norm then scale * Inverse(Row(q, t)) else scale
    }

    /** The tokens of the rule. */
    function Rule(): Tokens
      requires Laws()
    {
      Tokens(e, dk, (t, x) => QueryScale(t) * q(t, x), (t, x) => KeyScale(t) * k(t, x), v, g, beta)
    }

    /** The chunked pass's `l2norm` of a row: x over the root of its mean square and eps / dk, times
        1 / sqrt(dk). */
    function Fused(row: Vec, x: int): real
      requires Laws() && dk > 0
    {
      SquareNonNegative(dk, row);
      row(x) * (1.0 / sqrt(Square(row) / (dk as real) + EPS / (dk as real))) * (1.0 / sqrt(dk as real))
    }

    /** The tokens as the chunked pass forms them. */
    function ChunkTokens(): Tokens
      requires Laws()
    {
      Tokens(e, dk, (t, x) => (if l2norm && dk > 0 then Fused(Row(q, t), x) else q(t, x)) * scale,
             (t, x) => if l2norm && dk > 0 then Fused(Row(k, t), x) else k(t, x), v, g, beta)
    }
  }

  lemma SquareNonNegative(n: int, row: Vec)
    ensures Sum(0, n, Times(row, row)) >= 0.0
  {
    SumNonNegative(0, n, Times(row, row));
  }

  /** The root of a quotient. */
  lemma RootOfQuotient(c: Inputs, y: real, d: real)
    requires c.Laws() && y > 0.0 && d > 0.0
    ensures y / d > 0.0 && c.sqrt(y / d) * c.sqrt(d) == c.sqrt(y)
  {
    var a, b, r := c.sqrt(y / d), c.sqrt(d), c.sqrt(y);
    assert y / d > 0.0;
    SquareOfProduct(a, b);
    assert (a * b) * (a * b) == y / d * d == y;
    RootUnique(a * b, r);
  }

  lemma SquareOfProduct(a: real, b: real)
    ensures (a * b) * (a * b) == (a * a) * (b * b)
  {
    var ab := a * b;
    assert ab * ab == ab * a * b;
    assert ab * a == (a * a) * b;
  }

  lemma RootUnique(a: real, b: real)
    requires a > 0.0 && b > 0.0 && a * a == b * b
    ensures a == b
  {
    if a < b {
      SquareGrows(a, b);
    } else if b < a {
      SquareGrows(b, a);
    }
  }

  lemma SquareGrows(a: real, b: real)
    requires 0.0 < a < b
    ensures a * a < b * b
  {
    assert a * a < a * b;
  }

  /** The fused normalisation is the contract's. */
  lemma FusedIs(c: Inputs, row: Vec, x: int)
    requires c.Laws() && c.dk > 0
    ensures c.Fused(row, x) == c.Inverse(row) * row(x)
  {
    hide Sum;
    SquareNonNegative(c.dk, row);
    var d, y := c.dk as real, c.Square(row) + EPS;
    RootOfQuotient(c, y, d);
    assert c.Square(row) / d + EPS / d == y / d;
    QuotientOfRoots(row(x), c.sqrt(y / d), c.sqrt(d), c.sqrt(y));
  }

  lemma QuotientOfRoots(x: real, a: real, b: real, r: real)
    requires a > 0.0 && b > 0.0 && a * b == r
    ensures r > 0.0 && x * (1.0 / a) * (1.0 / b) == 1.0 / r * x
  {
    var i, j := 1.0 / a, 1.0 / b;
    assert i * a == 1.0 && j * b == 1.0;
    assert (i * j) * r == 1.0 by {
      assert (i * j) * (a * b) == (i * a) * (j * b);
    }
    assert i * j == 1.0 / r;
    assert x * i * j == (i * j) * x;
  }

  /** The chunked pass takes the rule's tokens. */
  lemma ChunkTokensAre(c: Inputs, n: int)
    requires c.Laws()
    ensures Alike(c.Rule(), c.ChunkTokens(), 0, n)
  {
    hide Inputs.Fused, Inputs.Inverse;
    forall t, x | 0 <= t < n && 0 <= x < c.dk
      ensures c.ChunkTokens().q(t, x) == c.Rule().q(0 + t, x) && c.ChunkTokens().k(t, x) == c.Rule().k(0 + t, x)
    {
      if c.l2norm {
        FusedIs(c, Row(c.q, t), x);
        FusedIs(c, Row(c.k, t), x);
        Rescaled(c.Inverse(Row(c.q, t)), c.q(t, x), c.scale);
        assert c.QueryScale(t) == c.scale * c.Inverse(Row(c.q, t)) && c.KeyScale(t) == c.Inverse(Row(c.k, t));
        assert c.ChunkTokens().q(t, x) == c.Fused(Row(c.q, t), x) * c.scale;
      }
      assert 0 + t == t;
      assert c.Rule().q(t, x) == c.QueryScale(t) * c.q(t, x) && c.Rule().k(t, x) == c.KeyScale(t) * c.k(t, x);
    }
  }

  lemma Rescaled(i: real, x: real, scale: real)
    ensures i * x * scale == scale * i * x
  {
  }
}
