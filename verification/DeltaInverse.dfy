/** The inverse of a unit lower triangular matrix by forward substitution, a column at a time: it is
    the inverse on both sides, it solves the system of a run of the gated delta rule, and its gradient in
    closed form is the adjoint of its derivative. */
module DeltaInverse {
  import opened Sums
  import opened Vectors
  import opened GatedDelta

  /** Column j of the unit matrix. */
  function Unit(j: int): Vec { i => if i == j then 1.0 else 0.0 }

  /** The matrix whose columns are given. */
  function FromColumns(cols: seq<seq<real>>): Mat {
    (i, j) => if 0 <= j < |cols| && 0 <= i < |cols[j]| then cols[j][i] else 0.0
  }

  /** (I + N) M = I, and M is lower triangular. */
  ghost predicate Inverts(n: int, lower: Mat, m: Mat) {
    && (forall j :: 0 <= j < n ==> Solves(n, lower, Unit(j), Col(m, j)))
    && forall i, j :: 0 <= i < j < n ==> m(i, j) == 0.0
  }

  /** One thread's column, from the top: zeros, 1 on the diagonal, and below it what keeps every row of the
      system at 0. */
  method Column(n: nat, lower: Mat, j: nat) returns (column: seq<real>)
    requires j < n
    ensures |column| == n
    ensures Solves(n, lower, Unit(j), Entries(column)) && forall i :: 0 <= i < j ==> column[i] == 0.0
  {
    hide Sum;
    var registers := new real[n];
    for i := 0 to n
      invariant Solves(i, lower, Unit(j), Entries(registers[..i]))
      invariant forall h :: 0 <= h < i && h < j ==> registers[h] == 0.0
    {
      var value := if i == j then 1.0 else 0.0;
      ghost var done := registers[..i];
      ghost var terms := Times(Row(lower, i), Entries(done));
      SumEmpty(j, terms);
      for k := j to if j < i then i else j
        invariant registers[..i] == done && value == Unit(j)(i) - Sum(j, k, terms)
      {
        SumNext(j, k, terms);
        assert registers[k] == done[k];
        var term := lower(i, k) * registers[k];
        assert terms(k) == term;
        value := value - term;
      }
      RowSolved(n, lower, j, i, done, value);
      registers[i] := if i < j then 0.0 else value;
      assert registers[..i + 1] == done + [registers[i]];
    }
    column := registers[..];
    assert registers[..n] == registers[..];
  }

  function Entries(s: seq<real>): Vec { i => if 0 <= i < |s| then s[i] else 0.0 }

  /** Row i is met once its entry is what is left of the unit column. */
  lemma RowSolved(n: nat, lower: Mat, j: nat, i: nat, done: seq<real>, value: real)
    requires j < n && |done| == i && Solves(i, lower, Unit(j), Entries(done))
    requires forall h :: 0 <= h < i && h < j ==> done[h] == 0.0
    requires value == Unit(j)(i) - Sum(j, if j < i then i else j, Times(Row(lower, i), Entries(done)))
    ensures Solves(i + 1, lower, Unit(j), Entries(done + [if i < j then 0.0 else value]))
  {
    hide Sum;
    var next := done + [if i < j then 0.0 else value];
    forall r | 0 <= r < i + 1
      ensures Entries(next)(r) + Sum(0, r, Times(Row(lower, r), Entries(next))) == Unit(j)(r)
    {
      SumEqual(0, r, Times(Row(lower, r), Entries(done)), Times(Row(lower, r), Entries(next)));
      if r == i {
        var terms := Times(Row(lower, i), Entries(done));
        if i <= j {
          SumZero(0, i, terms);
          SumEmpty(j, terms);
        } else {
          SumSplit(0, j, i, terms);
          SumZero(0, j, terms);
        }
      }
    }
  }

  /** A threadgroup: thread j takes column j. */
  method Inverse(n: nat, lower: Mat) returns (m: Mat)
    ensures Inverts(n, lower, m)
  {
    hide Sum, Solves;
    var cols: seq<seq<real>> := [];
    for j := 0 to n
      invariant |cols| == j && forall h :: 0 <= h < j ==> |cols[h]| == n
      invariant forall h :: 0 <= h < j ==> Solves(n, lower, Unit(h), Entries(cols[h]))
      invariant forall i, h :: 0 <= i < h < j ==> cols[h][i] == 0.0
    {
      var column := Column(n, lower, j);
      cols := cols + [column];
    }
    m := FromColumns(cols);
    forall j | 0 <= j < n
      ensures Solves(n, lower, Unit(j), Col(m, j))
    {
      SameSolves(n, lower, Unit(j), Entries(cols[j]), Col(m, j));
    }
  }

  lemma SameSolves(n: int, lower: Mat, b: Vec, u: Vec, u': Vec)
    requires Solves(n, lower, b, u) && forall i :: 0 <= i < n ==> u(i) == u'(i)
    ensures Solves(n, lower, b, u')
  {
    hide Sum;
    forall i | 0 <= i < n
      ensures u'(i) + Sum(0, i, Times(Row(lower, i), u')) == b(i)
    {
      SumEqual(0, i, Times(Row(lower, i), u), Times(Row(lower, i), u'));
    }
  }

  // ----- the inverse solves -----

  /** m b. */
  function Apply(n: int, m: Mat, b: Vec): Vec { i => Dot(n, Row(m, i), b) }

  /** M b solves (I + N) u = b. */
  lemma InverseSolves(n: int, lower: Mat, m: Mat, b: Vec)
    requires Inverts(n, lower, m)
    ensures Solves(n, lower, b, Apply(n, m, b))
  {
    hide Sum, Inverts;
    forall i | 0 <= i < n
      ensures Apply(n, m, b)(i) + Sum(0, i, Times(Row(lower, i), Apply(n, m, b))) == b(i)
    {
      RowApplied(n, lower, m, b, i);
    }
  }

  lemma RowApplied(n: int, lower: Mat, m: Mat, b: Vec, i: int)
    requires Inverts(n, lower, m) && 0 <= i < n
    ensures Apply(n, m, b)(i) + Sum(0, i, Times(Row(lower, i), Apply(n, m, b))) == b(i)
  {
    hide Sum, Dot;
    Adjoint(i, n, Row(lower, i), m, b);
    var seen := Combine(i, Row(lower, i), m);
    forall j | 0 <= j < n
      ensures seen(j) + m(i, j) == Unit(i)(j)
    {
      assert Solves(n, lower, Unit(j), Col(m, j));
      CombineAt(i, Row(lower, i), m, j);
      assert Col(m, j)(i) + Sum(0, i, Times(Row(lower, i), Col(m, j))) == Unit(j)(i);
    }
    DotPlus(n, b, seen, Row(m, i), Unit(i));
    DotSymmetric(n, b, Row(m, i));
    UnitPicks(n, b, i);
    ProjectIsApply(n, m, b, i, Row(lower, i));
  }

  lemma ProjectIsApply(n: int, m: Mat, b: Vec, i: int, f: Vec)
    ensures Sum(0, i, Times(f, Apply(n, m, b))) == Dot(i, f, Project(n, m, b))
  {
    hide Sum;
    SumEqual(0, i, Times(f, Apply(n, m, b)), Times(f, Project(n, m, b)));
  }

  lemma UnitPicks(n: int, b: Vec, i: int)
    requires 0 <= i < n
    ensures Dot(n, b, Unit(i)) == b(i)
  {
    hide Sum;
    SumOnly(0, n, i, Times(b, Unit(i)));
  }

  /** A unit lower triangular system has one solution. */
  lemma {:induction false} SolutionUnique(n: int, lower: Mat, b: Vec, u: Vec, u': Vec, i: int)
    requires 0 <= i < n && Solves(n, lower, b, u) && Solves(n, lower, b, u')
    ensures u(i) == u'(i)
    decreases i
  {
    hide Sum;
    forall h | 0 <= h < i
      ensures u(h) == u'(h)
    {
      SolutionUnique(n, lower, b, u, u', h);
    }
    SumEqual(0, i, Times(Row(lower, i), u), Times(Row(lower, i), u'));
  }

  /** (I + N) u. */
  function Forwarded(lower: Mat, u: Vec): Vec { i => u(i) + Sum(0, i, Times(Row(lower, i), u)) }

  /** M (I + N) = I too. */
  lemma InverseUndoes(n: int, lower: Mat, m: Mat, u: Vec, i: int)
    requires Inverts(n, lower, m) && 0 <= i < n
    ensures Apply(n, m, Forwarded(lower, u))(i) == u(i)
  {
    hide Sum, Inverts;
    InverseSolves(n, lower, m, Forwarded(lower, u));
    SolutionUnique(n, lower, Forwarded(lower, u), u, Apply(n, m, Forwarded(lower, u)), i);
  }

  // ----- the gradient in closed form -----

  /** a b. */
  function Product(n: int, a: Mat, b: Mat): Mat { (i, j) => Dot(n, Row(a, i), Col(b, j)) }

  function Transposed(a: Mat): Mat { (i, j) => a(j, i) }

  function Negated(f: Vec): Vec { i => 0.0 - f(i) }

  /** tril(-M^T dM M^T, -1). */
  function GradLower(n: int, m: Mat, dm: Mat): Mat {
    (i, j) => if j < i then 0.0 - Product(n, Product(n, Transposed(m), dm), Transposed(m))(i, j) else 0.0
  }

  /** What a direction of the triangle makes of the inverse: (I + N) M' + N' M = 0. */
  ghost predicate Tangent(n: int, lower: Mat, m: Mat, along: Mat, m': Mat) {
    forall j :: 0 <= j < n ==> Solves(n, lower, Negated(Col(Product(n, along, m), j)), Col(m', j))
  }

  /** M' = -M N' M. */
  lemma TangentIs(n: int, lower: Mat, m: Mat, along: Mat, m': Mat, i: int, j: int)
    requires Inverts(n, lower, m) && Tangent(n, lower, m, along, m') && 0 <= i < n && 0 <= j < n
    ensures m'(i, j) == 0.0 - Product(n, m, Product(n, along, m))(i, j)
  {
    hide Sum, Inverts, Product;
    var b := Col(Product(n, along, m), j);
    InverseSolves(n, lower, m, Negated(b));
    SolutionUnique(n, lower, Negated(b), Col(m', j), Apply(n, m, Negated(b)), i);
    DotScale(n, Row(m, i), -1.0, b, Negated(b));
    ProductAt(n, m, Product(n, along, m), i, j);
  }

  lemma ProductAt(n: int, a: Mat, b: Mat, i: int, j: int)
    ensures Product(n, a, b)(i, j) == Dot(n, Row(a, i), Col(b, j))
  {
  }

  /** <d, a b> = <a^T d, b>, a square and b of m columns. */
  lemma LeftAdjoint(n: int, m: int, d: Mat, a: Mat, b: Mat)
    ensures Inner(n, m, d, Product(n, a, b)) == Inner(n, m, Product(n, Transposed(a), d), b)
  {
    hide Sum, Dot;
    var inner: Mat := (i, j) => d(i, j) * Product(n, a, b)(i, j);
    var outer: Mat := (k, j) => Product(n, Transposed(a), d)(k, j) * b(k, j);
    forall j | 0 <= j < m
      ensures Sum(0, n, Col(inner, j)) == Sum(0, n, Col(outer, j))
    {
      Adjoint(n, n, Col(d, j), a, Col(b, j));
      ColumnForms(n, d, a, b, j, inner, outer);
    }
    InnerByColumns(n, m, d, Product(n, a, b), inner);
    InnerByColumns(n, m, Product(n, Transposed(a), d), b, outer);
    SumEqual(0, m, ColSums(inner, 0, n), ColSums(outer, 0, n));
  }

  lemma ColumnForms(n: int, d: Mat, a: Mat, b: Mat, j: int, inner: Mat, outer: Mat)
    requires forall i :: 0 <= i < n ==> inner(i, j) == d(i, j) * Product(n, a, b)(i, j)
    requires forall k :: 0 <= k < n ==> outer(k, j) == Product(n, Transposed(a), d)(k, j) * b(k, j)
    ensures Sum(0, n, Col(inner, j)) == Dot(n, Col(d, j), Project(n, a, Col(b, j)))
    ensures Sum(0, n, Col(outer, j)) == Dot(n, Col(b, j), Combine(n, Col(d, j), a))
  {
    hide Sum;
    SumEqual(0, n, Col(inner, j), Times(Col(d, j), Project(n, a, Col(b, j))));
    forall k | 0 <= k < n
      ensures Col(outer, j)(k) == Times(Col(b, j), Combine(n, Col(d, j), a))(k)
    {
      DotEqual(n, Col(a, k), Col(d, j), Row(Transposed(a), k), Col(d, j));
      DotSymmetric(n, Col(a, k), Col(d, j));
    }
    SumEqual(0, n, Col(outer, j), Times(Col(b, j), Combine(n, Col(d, j), a)));
  }

  lemma InnerByColumns(n: int, m: int, a: Mat, b: Mat, terms: Mat)
    requires forall i, j :: 0 <= i < n && 0 <= j < m ==> terms(i, j) == a(i, j) * b(i, j)
    ensures Inner(n, m, a, b) == Sum(0, m, ColSums(terms, 0, n))
  {
    hide Sum;
    forall i | 0 <= i < n
      ensures RowPairs(m, a, b)(i) == RowSums(terms, 0, m)(i)
    {
      SumEqual(0, m, Times(Row(a, i), Row(b, i)), Row(terms, i));
    }
    SumEqual(0, n, RowPairs(m, a, b), RowSums(terms, 0, m));
    SumSwap(0, n, 0, m, terms);
  }

  /** <d, a b> = <d b^T, a>. */
  lemma RightAdjoint(n: int, m: int, d: Mat, a: Mat, b: Mat)
    ensures Inner(n, m, d, Product(n, a, b)) == Inner(n, n, Product(m, d, Transposed(b)), a)
  {
    hide Sum, Dot;
    forall i | 0 <= i < n
      ensures RowPairs(m, d, Product(n, a, b))(i) == RowPairs(n, Product(m, d, Transposed(b)), a)(i)
    {
      RowAdjoint(n, m, d, a, b, i);
    }
    SumEqual(0, n, RowPairs(m, d, Product(n, a, b)), RowPairs(n, Product(m, d, Transposed(b)), a));
  }

  lemma RowAdjoint(n: int, m: int, d: Mat, a: Mat, b: Mat, i: int)
    ensures Dot(m, Row(d, i), Row(Product(n, a, b), i)) == Dot(n, Row(Product(m, d, Transposed(b)), i), Row(a, i))
  {
    hide Sum;
    Adjoint(n, m, Row(a, i), b, Row(d, i));
    DotEqual(m, Row(d, i), Row(Product(n, a, b), i), Row(d, i), Combine(n, Row(a, i), b));
    forall k | 0 <= k < n
      ensures Row(Product(m, d, Transposed(b)), i)(k) == Project(m, b, Row(d, i))(k)
    {
      DotEqual(m, Row(d, i), Col(Transposed(b), k), Row(d, i), Row(b, k));
      DotSymmetric(m, Row(d, i), Row(b, k));
    }
    DotEqual(n, Row(Product(m, d, Transposed(b)), i), Row(a, i), Project(m, b, Row(d, i)), Row(a, i));
    DotSymmetric(n, Project(m, b, Row(d, i)), Row(a, i));
  }

  /** The closed form is the adjoint: the inverse's gradient against its derivative is the gradient of
      the triangle against the direction. */
  lemma InverseAdjoint(n: int, lower: Mat, m: Mat, along: Mat, m': Mat, dm: Mat)
    requires Inverts(n, lower, m) && Tangent(n, lower, m, along, m')
    requires forall i, j :: 0 <= i <= j < n ==> along(i, j) == 0.0
    ensures Inner(n, n, dm, m') == Inner(n, n, GradLower(n, m, dm), along)
  {
    hide Sum, Dot, Inverts, Tangent, Product, Inner;
    var full := Product(n, Product(n, Transposed(m), dm), Transposed(m));
    var made := Product(n, m, Product(n, along, m));
    forall i, j | 0 <= i < n && 0 <= j < n
      ensures m'(i, j) == 0.0 - made(i, j)
    {
      TangentIs(n, lower, m, along, m', i, j);
    }
    InnerNegated(n, dm, made, dm, m');
    LeftAdjoint(n, n, dm, m, Product(n, along, m));
    RightAdjoint(n, n, Product(n, Transposed(m), dm), along, m);
    InnerNegated(n, full, along, GradLower(n, m, dm), along);
  }

  lemma InnerNegated(n: int, a: Mat, b: Mat, a': Mat, b': Mat)
    requires forall i, j :: 0 <= i < n && 0 <= j < n ==> a'(i, j) * b'(i, j) == 0.0 - a(i, j) * b(i, j)
    ensures Inner(n, n, a', b') == 0.0 - Inner(n, n, a, b)
  {
    hide Sum;
    forall i | 0 <= i < n
      ensures RowPairs(n, a', b')(i) == -1.0 * RowPairs(n, a, b)(i)
    {
      SumScale(0, n, -1.0, Times(Row(a, i), Row(b, i)), Times(Row(a', i), Row(b', i)));
    }
    SumScale(0, n, -1.0, RowPairs(n, a, b), RowPairs(n, a', b'));
  }
}
