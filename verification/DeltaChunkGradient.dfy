/** The two written-out gradients composed: from what flows into the scan back through it, through the
    products with every chunk's inverse, and through the inverse, to the chunks' triangles, values and
    keys. */
module DeltaChunkGradient {
  import opened Sums
  import opened Vectors
  import opened GatedDelta
  import opened DeltaInverse
  import opened DeltaScan
  import opened DeltaScanGradient

  /** Chunk i's triangle, its inverse, and the values and keys the inverse multiplies, with their moves
      along a direction. */
  datatype Chunk = Chunk(lower: Mat, m: Mat, values: Mat, keys: Mat, along: Mat, m': Mat, values': Mat, keys': Mat) {

    /** The inverse moves as its triangle does. */
    ghost predicate Valid(c: int) {
      && Inverts(c, lower, m) && Tangent(c, lower, m, along, m')
      && forall i, j :: 0 <= i <= j < c ==> along(i, j) == 0.0
    }
  }

  /** (m b)' = m' b + m b'. */
  function ProductMoves(c: int, m: Mat, m': Mat, b: Mat, b': Mat): Mat {
    (r, x) => Product(c, m', b)(r, x) + Product(c, m, b')(r, x)
  }

  /** Chunk i of the head's scan takes its products, and of the direction theirs. */
  ghost predicate ChunkOf(h: Head, d: HeadAlong, i: int, k: Chunk) {
    && k.Valid(h.c)
    && (forall r, x :: h.w(i)(r, x) == Product(h.c, k.m, k.keys)(r, x))
    && (forall r, z :: h.u0(z)(i, r) == Product(h.c, k.m, k.values)(r, z))
    && (forall r, x :: d.w(i)(r, x) == ProductMoves(h.c, k.m, k.m', k.keys, k.keys')(r, x))
    && (forall r, z :: d.u0(z)(i, r) == ProductMoves(h.c, k.m, k.m', k.values, k.values')(r, z))
  }

  // ----- the gradients -----

  /** du0, a column a state's column. */
  function GradU0(h: Head, up: int -> Upstream, i: nat): Mat
    requires i < h.n
  {
    (r, z) => GradU(h.Column(z), up(z), i)(r)
  }

  /** dM = du0 V^T + dw K^T. */
  function GradInverse(h: Head, up: int -> Upstream, i: nat, k: Chunk): Mat
    requires i < h.n
  {
    (r, j) => Product(h.dv, GradU0(h, up, i), Transposed(k.values))(r, j)
              + Product(h.dk, GradW(h, up, i), Transposed(k.keys))(r, j)
  }

  function GradValues(h: Head, up: int -> Upstream, i: nat, k: Chunk): Mat
    requires i < h.n
  {
    Product(h.c, Transposed(k.m), GradU0(h, up, i))
  }

  function GradKeys(h: Head, up: int -> Upstream, i: nat, k: Chunk): Mat
    requires i < h.n
  {
    Product(h.c, Transposed(k.m), GradW(h, up, i))
  }

  // ----- one chunk -----

  lemma InnerSymmetric(n: int, m: int, a: Mat, b: Mat)
    ensures Inner(n, m, a, b) == Inner(n, m, b, a)
  {
    hide Sum, Dot;
    forall i | 0 <= i < n
      ensures RowPairs(m, a, b)(i) == RowPairs(m, b, a)(i)
    {
      DotSymmetric(m, Row(a, i), Row(b, i));
    }
    SumEqual(0, n, RowPairs(m, a, b), RowPairs(m, b, a));
  }

  /** A product's gradient splits between its factors. */
  lemma ProductAdjoint(c: int, m: int, d: Mat, a: Mat, a': Mat, b: Mat, b': Mat, moved: Mat)
    requires forall r, x :: 0 <= r < c && 0 <= x < m ==> moved(r, x) == ProductMoves(c, a, a', b, b')(r, x)
    ensures Inner(c, m, d, moved)
         == Inner(c, c, Product(m, d, Transposed(b)), a') + Inner(c, m, Product(c, Transposed(a), d), b')
  {
    hide Sum, Dot, Inner, Product;
    InnerPlus(c, m, d, Product(c, a', b), Product(c, a, b'), moved);
    RightAdjoint(c, m, d, a', b);
    LeftAdjoint(c, m, d, a, b');
  }

  /** The columns' own gradients, by rows. */
  lemma StartsAdd(h: Head, up: int -> Upstream, d: HeadAlong, i: nat, moved: Mat)
    requires i < h.n && forall r, z :: 0 <= r < h.c && 0 <= z < h.dv ==> moved(r, z) == d.u0(z)(i, r)
    ensures Sum(0, h.dv, StartPairs(h, up, d, i)) == Inner(h.c, h.dv, GradU0(h, up, i), moved)
  {
    hide Sum, GradU;
    var terms: Mat := (r, z) => GradU0(h, up, i)(r, z) * moved(r, z);
    forall r | 0 <= r < h.c
      ensures RowPairs(h.dv, GradU0(h, up, i), moved)(r) == Sum(0, h.dv, Row(terms, r))
    {
      SumEqual(0, h.dv, Times(Row(GradU0(h, up, i), r), Row(moved, r)), Row(terms, r));
    }
    forall z | 0 <= z < h.dv
      ensures StartPairs(h, up, d, i)(z) == Sum(0, h.c, Col(terms, z))
    {
      SumEqual(0, h.c, Times(GradU(h.Column(z), up(z), i), Row(d.u0(z), i)), Col(terms, z));
    }
    SumExchange(0, h.c, RowPairs(h.dv, GradU0(h, up, i), moved), 0, h.dv, StartPairs(h, up, d, i), terms);
  }

  /** One chunk's pairing, by its triangle, its values, its keys, its kept keys and its decay. */
  function Composed(h: Head, up: int -> Upstream, d: HeadAlong, i: nat, k: Chunk): real
    requires i < h.n
  {
    Inner(h.c, h.c, GradLower(h.c, k.m, GradInverse(h, up, i, k)), k.along)
    + Inner(h.c, h.dv, GradValues(h, up, i, k), k.values') + Inner(h.c, h.dk, GradKeys(h, up, i, k), k.keys')
    + Inner(h.c, h.dk, GradKs(h, up, i), d.ks(i)) + d.decay(i) * GradDecay(h, up, i)
  }

  lemma ChunkComposes(h: Head, up: int -> Upstream, d: HeadAlong, i: nat, k: Chunk)
    requires i < h.n && ChunkOf(h, d, i, k)
    ensures ChunkPairs(h, up, d)(i) == Composed(h, up, d, i, k)
  {
    hide Sum, Dot, Inner, Product, Inverts, Tangent, GradLower, GradU0, GradW, GradKs, GradDecay, ProductMoves,
         StartPairs;
    var u', w' := ProductMoves(h.c, k.m, k.m', k.values, k.values'), ProductMoves(h.c, k.m, k.m', k.keys, k.keys');
    StartsAdd(h, up, d, i, u');
    ProductAdjoint(h.c, h.dv, GradU0(h, up, i), k.m, k.m', k.values, k.values', u');
    ProductAdjoint(h.c, h.dk, GradW(h, up, i), k.m, k.m', k.keys, k.keys', d.w(i));
    var first := Product(h.dv, GradU0(h, up, i), Transposed(k.values));
    var second := Product(h.dk, GradW(h, up, i), Transposed(k.keys));
    InnerPlus(h.c, h.c, k.m', first, second, GradInverse(h, up, i, k));
    InnerSymmetric(h.c, h.c, k.m', first);
    InnerSymmetric(h.c, h.c, k.m', second);
    InnerSymmetric(h.c, h.c, k.m', GradInverse(h, up, i, k));
    InverseAdjoint(h.c, k.lower, k.m, k.along, k.m', GradInverse(h, up, i, k));
  }

  // ----- a head -----

  function ComposedPairs(h: Head, up: int -> Upstream, d: HeadAlong, chunks: int -> Chunk): Vec {
    i => if 0 <= i < h.n then Composed(h, up, d, i, chunks(i)) else 0.0
  }

  /** What flows into the scan, against what moves when the chunks' triangles, values, keys, kept keys and
      decays and the first states do, is their gradients against their own moves: the scan's, carried
      through the products and the inverse's closed form. */
  lemma ChunksAdjoint(h: Head, up: int -> Upstream, d: HeadAlong, chunks: int -> Chunk)
    requires forall i :: 0 <= i < h.n ==> ChunkOf(h, d, i, chunks(i))
    ensures Sum(0, h.dv, ColumnPairings(h, up, d))
         == Sum(0, h.dv, FirstPairs(h, up, d)) + Sum(0, h.n, ComposedPairs(h, up, d, chunks))
  {
    hide Sum, ChunkOf, Composed, ChunkPairs, ColumnPairings, FirstPairs;
    HeadAdjoint(h, up, d);
    forall i | 0 <= i < h.n
      ensures ChunkPairs(h, up, d)(i) == ComposedPairs(h, up, d, chunks)(i)
    {
      ChunkComposes(h, up, d, i, chunks(i));
    }
    SumEqual(0, h.n, ChunkPairs(h, up, d), ComposedPairs(h, up, d, chunks));
  }
}
