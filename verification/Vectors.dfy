/** Inner products and matrix products over index ranges, and the one exchange every gradient rests
    on: a product with a matrix is adjoint to the product with its transpose. */
module Vectors {
  import opened Sums

  function Times(f: Vec, g: Vec): Vec { i => f(i) * g(i) }

  function Plus(f: Vec, g: Vec): Vec { i => f(i) + g(i) }

  /** The inner product over 0..n. */
  function Dot(n: int, f: Vec, g: Vec): real { Sum(0, n, Times(f, g)) }

  lemma DotIs(n: int, f: Vec, g: Vec)
    ensures Dot(n, f, g) == Sum(0, n, Times(f, g))
  {
  }

  /** a^T m: the rows 0..n of m combined with the coefficients a. */
  function Combine(n: int, a: Vec, m: Mat): Vec { x => Dot(n, a, Col(m, x)) }

  lemma CombineAt(n: int, a: Vec, m: Mat, x: int)
    ensures Combine(n, a, m)(x) == Sum(0, n, Times(a, Col(m, x)))
  {
  }

  /** m g: each row of m, over its columns 0..d, against g. */
  function Project(d: int, m: Mat, g: Vec): Vec { j => Dot(d, Row(m, j), g) }

  lemma DotEqual(n: int, f: Vec, g: Vec, f': Vec, g': Vec)
    requires forall i :: 0 <= i < n ==> f(i) == f'(i)
    requires forall i :: 0 <= i < n ==> g(i) == g'(i)
    ensures Dot(n, f, g) == Dot(n, f', g')
  {
    SumEqual(0, n, Times(f, g), Times(f', g'));
  }

  lemma DotSymmetric(n: int, f: Vec, g: Vec)
    ensures Dot(n, f, g) == Dot(n, g, f)
  {
    SumEqual(0, n, Times(f, g), Times(g, f));
  }

  /** Linearity in the second factor. */
  lemma DotLinear(n: int, f: Vec, a: real, g: Vec, b: real, h: Vec, gh: Vec)
    requires forall i :: 0 <= i < n ==> gh(i) == a * g(i) + b * h(i)
    ensures Dot(n, f, gh) == a * Dot(n, f, g) + b * Dot(n, f, h)
  {
    forall i | 0 <= i < n
      ensures Times(f, gh)(i) == a * Times(f, g)(i) + b * Times(f, h)(i)
    {
      Distribute(f(i), a, g(i), b, h(i));
    }
    SumLinear(0, n, a, Times(f, g), b, Times(f, h), Times(f, gh));
  }

  lemma Distribute(f: real, a: real, g: real, b: real, h: real)
    ensures f * (a * g + b * h) == a * (f * g) + b * (f * h)
  {
  }

  lemma DotScale(n: int, f: Vec, a: real, g: Vec, ag: Vec)
    requires forall i :: 0 <= i < n ==> ag(i) == a * g(i)
    ensures Dot(n, f, ag) == a * Dot(n, f, g)
  {
    DotLinear(n, f, a, g, 0.0, g, ag);
  }

  lemma DotPlus(n: int, f: Vec, g: Vec, h: Vec, gh: Vec)
    requires forall i :: 0 <= i < n ==> gh(i) == g(i) + h(i)
    ensures Dot(n, f, gh) == Dot(n, f, g) + Dot(n, f, h)
  {
    DotLinear(n, f, 1.0, g, 1.0, h, gh);
  }

  /** Linearity over four terms. */
  lemma DotFour(n: int, f: Vec, a: real, g: Vec, b: real, h: Vec, c: real, k: Vec, d: real, l: Vec, all: Vec)
    requires forall i :: 0 <= i < n ==> all(i) == a * g(i) + b * h(i) + c * k(i) + d * l(i)
    ensures Dot(n, f, all) == a * Dot(n, f, g) + b * Dot(n, f, h) + (c * Dot(n, f, k) + d * Dot(n, f, l))
  {
    hide Sum, Dot;
    var first: Vec := i => a * g(i) + b * h(i);
    var second: Vec := i => c * k(i) + d * l(i);
    DotLinear(n, f, a, g, b, h, first);
    DotLinear(n, f, c, k, d, l, second);
    DotPlus(n, f, first, second, all);
  }

  /** (m g) . a = g . (a^T m). */
  lemma Adjoint(n: int, d: int, a: Vec, m: Mat, g: Vec)
    ensures Dot(n, a, Project(d, m, g)) == Dot(d, g, Combine(n, a, m))
  {
    hide Sum;
    var terms: Mat := (j, x) => a(j) * (m(j, x) * g(x));
    forall j | 0 <= j < n
      ensures Times(a, Project(d, m, g))(j) == Sum(0, d, Row(terms, j))
    {
      SumScale(0, d, a(j), Times(Row(m, j), g), Row(terms, j));
    }
    forall x | 0 <= x < d
      ensures Times(g, Combine(n, a, m))(x) == Sum(0, n, Col(terms, x))
    {
      forall j | 0 <= j < n
        ensures Col(terms, x)(j) == g(x) * Times(a, Col(m, x))(j)
      {
        Rotate(a(j), m(j, x), g(x));
      }
      SumScale(0, n, g(x), Times(a, Col(m, x)), Col(terms, x));
    }
    SumExchange(0, n, Times(a, Project(d, m, g)), 0, d, Times(g, Combine(n, a, m)), terms);
  }

  lemma Rotate(a: real, b: real, c: real)
    ensures a * (b * c) == c * (a * b)
  {
  }

  function RowProducts(t: int, d: int, m: Mat, a: Mat, b: Mat): Vec {
    i => Dot(t, Row(m, i), Project(d, b, Row(a, i)))
  }

  function ColProducts(n: int, d: int, m: Mat, a: Mat, b: Mat): Vec {
    j => Dot(d, Row(b, j), Combine(n, Col(m, j), a))
  }

  /** sum_ij m_ij (a_i . b_j) gathered by row or by column: row i's share is a_i against its
      combination of the b's, column j's is b_j against its combination of the a's. */
  lemma BilinearExchange(n: int, t: int, d: int, m: Mat, a: Mat, b: Mat)
    ensures Sum(0, n, RowProducts(t, d, m, a, b)) == Sum(0, t, ColProducts(n, d, m, a, b))
  {
    hide Sum, Dot;
    var terms: Mat := (i, j) => m(i, j) * Dot(d, Row(a, i), Row(b, j));
    forall i | 0 <= i < n
      ensures RowProducts(t, d, m, a, b)(i) == Sum(0, t, Row(terms, i))
    {
      RowProductTerms(t, d, m, a, b, i, Row(terms, i));
    }
    forall j | 0 <= j < t
      ensures ColProducts(n, d, m, a, b)(j) == Sum(0, n, Col(terms, j))
    {
      ColProductTerms(n, d, m, a, b, j, Col(terms, j));
    }
    SumExchange(0, n, RowProducts(t, d, m, a, b), 0, t, ColProducts(n, d, m, a, b), terms);
  }

  lemma RowProductTerms(t: int, d: int, m: Mat, a: Mat, b: Mat, i: int, terms: Vec)
    requires forall j :: 0 <= j < t ==> terms(j) == m(i, j) * Dot(d, Row(a, i), Row(b, j))
    ensures RowProducts(t, d, m, a, b)(i) == Sum(0, t, terms)
  {
    forall j | 0 <= j < t
      ensures Times(Row(m, i), Project(d, b, Row(a, i)))(j) == terms(j)
    {
      DotSymmetric(d, Row(a, i), Row(b, j));
    }
    SumEqual(0, t, Times(Row(m, i), Project(d, b, Row(a, i))), terms);
  }

  lemma ColProductTerms(n: int, d: int, m: Mat, a: Mat, b: Mat, j: int, terms: Vec)
    requires forall i :: 0 <= i < n ==> terms(i) == m(i, j) * Dot(d, Row(a, i), Row(b, j))
    ensures ColProducts(n, d, m, a, b)(j) == Sum(0, n, terms)
  {
    Adjoint(n, d, Col(m, j), a, Row(b, j));
    SumEqual(0, n, Times(Col(m, j), Project(d, a, Row(b, j))), terms);
  }

  function RowPairs(d: int, a: Mat, b: Mat): Vec { i => Dot(d, Row(a, i), Row(b, i)) }

  /** The inner product of two n x d matrices. */
  function Inner(n: int, d: int, a: Mat, b: Mat): real { Sum(0, n, RowPairs(d, a, b)) }

  lemma InnerEqual(n: int, d: int, a: Mat, b: Mat, a': Mat, b': Mat)
    requires forall i, x :: 0 <= i < n && 0 <= x < d ==> a(i, x) == a'(i, x)
    requires forall i, x :: 0 <= i < n && 0 <= x < d ==> b(i, x) == b'(i, x)
    ensures Inner(n, d, a, b) == Inner(n, d, a', b')
  {
    forall i | 0 <= i < n
      ensures RowPairs(d, a, b)(i) == RowPairs(d, a', b')(i)
    {
      forall x | 0 <= x < d
        ensures Row(a, i)(x) == Row(a', i)(x) && Row(b, i)(x) == Row(b', i)(x)
      {
        assert a(i, x) == a'(i, x) && b(i, x) == b'(i, x);
      }
      DotEqual(d, Row(a, i), Row(b, i), Row(a', i), Row(b', i));
    }
    SumEqual(0, n, RowPairs(d, a, b), RowPairs(d, a', b'));
  }

  lemma InnerPlus(n: int, d: int, a: Mat, b: Mat, c: Mat, bc: Mat)
    requires forall i, x :: 0 <= i < n && 0 <= x < d ==> bc(i, x) == b(i, x) + c(i, x)
    ensures Inner(n, d, a, bc) == Inner(n, d, a, b) + Inner(n, d, a, c)
  {
    forall i | 0 <= i < n
      ensures RowPairs(d, a, bc)(i) == RowPairs(d, a, b)(i) + RowPairs(d, a, c)(i)
    {
      forall x | 0 <= x < d
        ensures Row(bc, i)(x) == Row(b, i)(x) + Row(c, i)(x)
      {
        assert bc(i, x) == b(i, x) + c(i, x);
      }
      DotPlus(d, Row(a, i), Row(b, i), Row(c, i), Row(bc, i));
    }
    SumAdd(0, n, RowPairs(d, a, b), RowPairs(d, a, c), RowPairs(d, a, bc));
  }

  lemma InnerZero(n: int, d: int, a: Mat, b: Mat)
    requires forall i, x :: 0 <= i < n && 0 <= x < d ==> b(i, x) == 0.0
    ensures Inner(n, d, a, b) == 0.0
  {
    forall i | 0 <= i < n
      ensures RowPairs(d, a, b)(i) == 0.0
    {
      forall x | 0 <= x < d
        ensures Times(Row(a, i), Row(b, i))(x) == 0.0
      {
        assert b(i, x) == 0.0;
      }
      SumZero(0, d, Times(Row(a, i), Row(b, i)));
    }
    SumZero(0, n, RowPairs(d, a, b));
  }
}
