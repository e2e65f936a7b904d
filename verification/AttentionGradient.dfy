/** The gradients of attention as FlashAttention-2 forms them, and the proof that they are the
    adjoint of the contract's derivative, for the output and the log-sum-exp together. */
module AttentionGradient {
  import opened Sums
  import opened Vectors
  import opened Analysis
  import opened Integers
  import opened AttentionContract

  /** A direction in the inputs. */
  datatype Direction = Direction(q: Tensor, k: Tensor, v: Tensor)

  function RowTensor(t: Tensor, n: int, i: int): Vec { x => t(n, i, x) }

  function Slice(t: Tensor, n: int): Mat { (i, x) => t(n, i, x) }

  // ----- the contract over dual numbers -----

  function DualProducts(c: Call, t: Direction, n: int, i: int, j: int): int -> Dual
    requires c.group > 0
  {
    x => Dual(c.q(n, i, x), t.q(n, i, x)).Times(Dual(c.k(n / c.group, j, x), t.k(n / c.group, j, x)))
  }

  function DualScore(c: Call, t: Direction, n: int, i: int, j: int): Dual
    requires c.group > 0
  {
    Const(c.scale).Times(SumDual(0, c.d, DualProducts(c, t, n, i, j)))
  }

  function DualWeights(c: Call, t: Direction, n: int, i: int): int -> Dual
    requires c.group > 0 && c.heads > 0
  {
    j => if c.Visible(n, i, j) then DualScore(c, t, n, i, j).Exp(c.e) else Const(0.0)
  }

  function DualZ(c: Call, t: Direction, n: int, i: int): Dual
    requires c.group > 0 && c.heads > 0
  {
    SumDual(0, c.geom.tk, DualWeights(c, t, n, i))
  }

  /** The log-sum-exp of a row that sees a key. */
  function DualLse(c: Call, t: Direction, n: int, i: int): Dual
    requires c.group > 0 && c.heads > 0 && DualZ(c, t, n, i).v > 0.0
  {
    DualZ(c, t, n, i).Ln(c.e)
  }

  function DualP(c: Call, t: Direction, n: int, i: int): int -> Dual
    requires c.group > 0 && c.heads > 0 && DualZ(c, t, n, i).v > 0.0
  {
    j => if c.Visible(n, i, j) then DualScore(c, t, n, i, j).Minus(DualLse(c, t, n, i)).Exp(c.e) else Const(0.0)
  }

  function DualValueTerms(c: Call, t: Direction, n: int, i: int, x: int): int -> Dual
    requires c.group > 0 && c.heads > 0 && DualZ(c, t, n, i).v > 0.0
  {
    j => DualP(c, t, n, i)(j).Times(Dual(c.v(n / c.group, j, x), t.v(n / c.group, j, x)))
  }

  function DualOut(c: Call, t: Direction, n: int, i: int, x: int): Dual
    requires c.group > 0 && c.heads > 0 && DualZ(c, t, n, i).v > 0.0
  {
    SumDual(0, c.geom.tk, DualValueTerms(c, t, n, i, x))
  }

  // ----- what the dual evaluation comes to -----

  function PRow(c: Call, n: int, i: int): Vec
    requires c.group > 0 && c.heads > 0
  {
    j => c.P(n, i, j)
  }

  /** The values head n reads. */
  function ValuesOf(c: Call, v: Tensor, n: int): Mat
    requires c.group > 0
  {
    (j, x) => v(n / c.group, j, x)
  }

  /** The scores' derivative: scale (dq k + q dk). */
  function ScoreTangent(c: Call, t: Direction, n: int, i: int): Vec
    requires c.group > 0
  {
    j => c.scale * (Dot(c.d, RowTensor(t.q, n, i), Row(ValuesOf(c, c.k, n), j))
                    + Dot(c.d, RowTensor(c.q, n, i), Row(ValuesOf(c, t.k, n), j)))
  }

  lemma DualProductIs(c: Call, t: Direction, n: int, i: int, j: int, x: int)
    requires c.group > 0
    ensures Values(DualProducts(c, t, n, i, j))(x) == c.Products(n, i, j)(x)
    ensures Tangents(DualProducts(c, t, n, i, j))(x)
         == Times(RowTensor(t.q, n, i), Row(ValuesOf(c, c.k, n), j))(x)
            + Times(RowTensor(c.q, n, i), Row(ValuesOf(c, t.k, n), j))(x)
  {
    var f := DualProducts(c, t, n, i, j);
    assert f(x) == Dual(c.q(n, i, x), t.q(n, i, x)).Times(Dual(c.k(n / c.group, j, x), t.k(n / c.group, j, x)));
  }

  lemma DualScoreIs(c: Call, t: Direction, n: int, i: int, j: int)
    requires c.group > 0
    ensures DualScore(c, t, n, i, j) == Dual(c.Score(n, i, j), ScoreTangent(c, t, n, i)(j))
  {
    hide Sum;
    var f := DualProducts(c, t, n, i, j);
    var fq := Times(RowTensor(t.q, n, i), Row(ValuesOf(c, c.k, n), j));
    var fk := Times(RowTensor(c.q, n, i), Row(ValuesOf(c, t.k, n), j));
    forall x | 0 <= x < c.d
      ensures Values(f)(x) == c.Products(n, i, j)(x) && Tangents(f)(x) == fq(x) + fk(x)
    {
      hide *;
      DualProductIs(c, t, n, i, j, x);
    }
    SumEqual(0, c.d, Values(f), c.Products(n, i, j));
    SumAdd(0, c.d, fq, fk, Tangents(f));
  }

  lemma DualZIs(c: Call, t: Direction, n: int, i: int)
    requires c.Valid()
    ensures DualZ(c, t, n, i)
         == Dual(c.Z(n, i), Dot(c.geom.tk, c.Weights(n, i), ScoreTangent(c, t, n, i)))
  {
    hide Sum;
    forall j | 0 <= j < c.geom.tk
      ensures DualWeights(c, t, n, i)(j)
           == Dual(c.Weights(n, i)(j), c.Weights(n, i)(j) * ScoreTangent(c, t, n, i)(j))
    {
      DualScoreIs(c, t, n, i, j);
    }
    SumEqual(0, c.geom.tk, Values(DualWeights(c, t, n, i)), c.Weights(n, i));
    SumEqual(0, c.geom.tk, Tangents(DualWeights(c, t, n, i)), Times(c.Weights(n, i), ScoreTangent(c, t, n, i)));
  }

  /** The log-sum-exp's derivative: the scores' averaged by p. */
  function LseTangent(c: Call, t: Direction, n: int, i: int): real
    requires c.group > 0 && c.heads > 0
  {
    Dot(c.geom.tk, PRow(c, n, i), ScoreTangent(c, t, n, i))
  }

  lemma AveragedTerm(c: Call, n: int, i: int, st: Vec, j: int)
    requires c.Valid() && c.Z(n, i) > 0.0
    ensures Times(PRow(c, n, i), st)(j) == (1.0 / c.Z(n, i)) * Times(c.Weights(n, i), st)(j)
  {
    hide Sum, Call.Z;
    PIsRatio(c, n, i, j);
    Ratio(c.Weights(n, i)(j), c.Z(n, i));
    ThreeFactors(1.0 / c.Z(n, i), c.Weights(n, i)(j), st(j));
  }

  lemma DualLseIs(c: Call, t: Direction, n: int, i: int)
    requires c.Valid() && c.SeesKey(n, i)
    ensures DualZ(c, t, n, i).v > 0.0
    ensures DualLse(c, t, n, i) == Dual(c.e.ln(c.Z(n, i)), LseTangent(c, t, n, i))
  {
    hide Sum, ScoreTangent, DualZ;
    ZPositive(c, n, i);
    DualZIs(c, t, n, i);
    var z, st := c.Z(n, i), ScoreTangent(c, t, n, i);
    forall j | 0 <= j < c.geom.tk
      ensures Times(PRow(c, n, i), st)(j) == (1.0 / z) * Times(c.Weights(n, i), st)(j)
    {
      AveragedTerm(c, n, i, st, j);
    }
    SumScale(0, c.geom.tk, 1.0 / z, Times(c.Weights(n, i), st), Times(PRow(c, n, i), st));
    Ratio(Dot(c.geom.tk, c.Weights(n, i), st), z);
  }

  /** The probabilities' derivative: p (ds - dlse). */
  function PTangent(c: Call, t: Direction, n: int, i: int): Vec
    requires c.group > 0 && c.heads > 0
  {
    j => c.P(n, i, j) * (ScoreTangent(c, t, n, i)(j) - LseTangent(c, t, n, i))
  }

  /** The output's derivative: dp v + p dv. */
  function OutTangent(c: Call, t: Direction, n: int, i: int): Vec
    requires c.group > 0 && c.heads > 0
  {
    x => Dot(c.geom.tk, PTangent(c, t, n, i), Col(ValuesOf(c, c.v, n), x))
         + Dot(c.geom.tk, PRow(c, n, i), Col(ValuesOf(c, t.v, n), x))
  }

  lemma DualPIs(c: Call, t: Direction, n: int, i: int, j: int)
    requires c.Valid() && c.SeesKey(n, i)
    ensures DualZ(c, t, n, i).v > 0.0
    ensures DualP(c, t, n, i)(j) == Dual(c.P(n, i, j), PTangent(c, t, n, i)(j))
  {
    hide Sum, Dot, DualZ, LseTangent;
    DualLseIs(c, t, n, i);
    DualScoreIs(c, t, n, i, j);
  }

  lemma DualOutIs(c: Call, t: Direction, n: int, i: int, x: int)
    requires c.Valid() && c.SeesKey(n, i)
    ensures DualZ(c, t, n, i).v > 0.0
    ensures DualOut(c, t, n, i, x) == Dual(c.Out(n, i, x), OutTangent(c, t, n, i)(x))
  {
    hide Sum, DualP, DualZ, Call.P, PTangent;
    DualLseIs(c, t, n, i);
    forall j | 0 <= j < c.geom.tk
      ensures Values(DualValueTerms(c, t, n, i, x))(j) == c.ValueTerms(n, i, x)(j)
      ensures Tangents(DualValueTerms(c, t, n, i, x))(j)
           == Times(PTangent(c, t, n, i), Col(ValuesOf(c, c.v, n), x))(j)
              + Times(PRow(c, n, i), Col(ValuesOf(c, t.v, n), x))(j)
    {
      DualPIs(c, t, n, i, j);
    }
    SumEqual(0, c.geom.tk, Values(DualValueTerms(c, t, n, i, x)), c.ValueTerms(n, i, x));
    SumAdd(0, c.geom.tk, Times(PTangent(c, t, n, i), Col(ValuesOf(c, c.v, n), x)),
           Times(PRow(c, n, i), Col(ValuesOf(c, t.v, n), x)), Tangents(DualValueTerms(c, t, n, i, x)));
  }

  // ----- the gradients -----

  /** What flows back into the output and the log-sum-exp. */
  datatype Cotangent = Cotangent(out: Tensor, lse: Mat)

  function OutRow(c: Call, n: int, i: int): Vec
    requires c.group > 0 && c.heads > 0
  {
    x => c.Out(n, i, x)
  }

  /** delta = rowsum(dO O), less the log-sum-exp's own gradient. */
  function Delta(c: Call, g: Cotangent, n: int, i: int): real
    requires c.group > 0 && c.heads > 0
  {
    Dot(c.d, RowTensor(g.out, n, i), OutRow(c, n, i)) - g.lse(n, i)
  }

  /** dS = P (dP - delta) with dP = dO V^T. */
  function DScores(c: Call, g: Cotangent, n: int): Mat
    requires c.group > 0 && c.heads > 0
  {
    (i, j) => c.P(n, i, j)
              * (Project(c.d, ValuesOf(c, c.v, n), RowTensor(g.out, n, i))(j) - Delta(c, g, n, i))
  }

  function Probabilities(c: Call, n: int): Mat
    requires c.group > 0 && c.heads > 0
  {
    (i, j) => c.P(n, i, j)
  }

  /** dQ = scale dS K. */
  function GradQ(c: Call, g: Cotangent): Tensor
    requires c.group > 0 && c.heads > 0
  {
    (n, i, x) => c.scale * Combine(c.geom.tk, Row(DScores(c, g, n), i), ValuesOf(c, c.k, n))(x)
  }

  /** One query head's part of dK = scale dS^T Q. */
  function HeadGradK(c: Call, g: Cotangent): Tensor
    requires c.group > 0 && c.heads > 0
  {
    (n, j, x) => c.scale * Combine(c.geom.tq, Col(DScores(c, g, n), j), Slice(c.q, n))(x)
  }

  /** One query head's part of dV = P^T dO. */
  function HeadGradV(c: Call, g: Cotangent): Tensor
    requires c.group > 0 && c.heads > 0
  {
    (n, j, x) => Combine(c.geom.tq, Col(Probabilities(c, n), j), Slice(g.out, n))(x)
  }

  /** A key-value slice takes the sum over its query heads. */
  function GroupSum(c: Call, t: Tensor): Tensor {
    (y, j, x) => Sum(y * c.group, (y + 1) * c.group, (n: int) => t(n, j, x))
  }

  function GradK(c: Call, g: Cotangent): Tensor
    requires c.group > 0 && c.heads > 0
  {
    GroupSum(c, HeadGradK(c, g))
  }

  function GradV(c: Call, g: Cotangent): Tensor
    requires c.group > 0 && c.heads > 0
  {
    GroupSum(c, HeadGradV(c, g))
  }

  // ----- the adjoint identity -----

  /** One row of softmax attention: p, the scores' derivative st, the values V and theirs VT. */
  lemma RowAdjoint(tk: int, d: int, p: Vec, st: Vec, dO: Vec, dl: real, v: Mat, vt: Mat, out: Vec, pt: Vec,
                   outT: Vec, ds: Vec)
    requires forall x :: 0 <= x < d ==> out(x) == Combine(tk, p, v)(x)
    requires forall j :: 0 <= j < tk ==> pt(j) == p(j) * (st(j) - Dot(tk, p, st))
    requires forall x :: 0 <= x < d ==> outT(x) == Combine(tk, pt, v)(x) + Combine(tk, p, vt)(x)
    requires forall j :: 0 <= j < tk ==> ds(j) == p(j) * (Project(d, v, dO)(j) - (Dot(d, dO, out) - dl))
    ensures Dot(d, dO, outT) + dl * Dot(tk, p, st) == Dot(tk, ds, st) + Dot(tk, p, Project(d, vt, dO))
  {
    hide Sum, Dot, Combine, Project;
    var dp, l, b := Project(d, v, dO), Dot(tk, p, st), Dot(d, dO, out);
    DotPlus(d, dO, Combine(tk, pt, v), Combine(tk, p, vt), outT);
    Adjoint(tk, d, pt, v, dO);
    Adjoint(tk, d, p, vt, dO);
    DotEqual(d, dO, out, dO, Combine(tk, p, v));
    Adjoint(tk, d, p, v, dO);
    assert b == Dot(tk, p, dp);
    ProbabilityTangents(tk, p, st, dp, pt, l);
    ScoreGradients(tk, p, st, dp, ds, b - dl);
    assert Dot(d, dO, outT) == Dot(tk, pt, dp) + Dot(tk, p, Project(d, vt, dO));
  }

  /** sum p (st - l) dp = sum p st dp - l sum p dp. */
  lemma ProbabilityTangents(tk: int, p: Vec, st: Vec, dp: Vec, pt: Vec, l: real)
    requires forall j :: 0 <= j < tk ==> pt(j) == p(j) * (st(j) - l)
    ensures Dot(tk, pt, dp) == Dot(tk, p, Times(st, dp)) - l * Dot(tk, p, dp)
  {
    forall j | 0 <= j < tk
      ensures Times(pt, dp)(j) == 1.0 * Times(p, Times(st, dp))(j) + (-l) * Times(p, dp)(j)
    {
      Expand(p(j), st(j), l, dp(j));
    }
    SumLinear(0, tk, 1.0, Times(p, Times(st, dp)), -l, Times(p, dp), Times(pt, dp));
  }

  /** sum p (dp - e) st = sum p st dp - e sum p st. */
  lemma ScoreGradients(tk: int, p: Vec, st: Vec, dp: Vec, ds: Vec, e: real)
    requires forall j :: 0 <= j < tk ==> ds(j) == p(j) * (dp(j) - e)
    ensures Dot(tk, ds, st) == Dot(tk, p, Times(st, dp)) - e * Dot(tk, p, st)
  {
    forall j | 0 <= j < tk
      ensures Times(ds, st)(j) == 1.0 * Times(p, Times(st, dp))(j) + (-e) * Times(p, st)(j)
    {
      Expand(p(j), dp(j), e, st(j));
    }
    SumLinear(0, tk, 1.0, Times(p, Times(st, dp)), -e, Times(p, st), Times(ds, st));
  }

  lemma Expand(p: real, a: real, l: real, b: real)
    ensures (p * (a - l)) * b == 1.0 * (p * (a * b)) + (-l) * (p * b)
    ensures (p * (a - l)) * b == 1.0 * (p * (b * a)) + (-l) * (p * b)
  {
  }

  function DualOutRow(c: Call, t: Direction, n: int, i: int): int -> Dual
    requires c.group > 0 && c.heads > 0 && DualZ(c, t, n, i).v > 0.0
  {
    x => DualOut(c, t, n, i, x)
  }

  /** How the cotangent of a row sees a direction: the derivative of its output and its log-sum-exp;
      nothing for a row that sees no key, whose output is 0 and log-sum-exp -inf whatever moves. */
  function RowPairing(c: Call, t: Direction, g: Cotangent, n: int, i: int): real
    requires c.group > 0 && c.heads > 0
  {
    if DualZ(c, t, n, i).v > 0.0
    then Dot(c.d, RowTensor(g.out, n, i), Tangents(DualOutRow(c, t, n, i))) + g.lse(n, i) * DualLse(c, t, n, i).t
    else 0.0
  }

  /** A row that sees no key has no probabilities and no score gradients. */
  lemma UnseenRow(c: Call, g: Cotangent, n: int, i: int, f: Vec)
    requires c.Valid() && !c.SeesKey(n, i)
    ensures Dot(c.geom.tk, PRow(c, n, i), f) == 0.0
    ensures Dot(c.geom.tk, Row(DScores(c, g, n), i), f) == 0.0
  {
    hide Sum, Delta, Project;
    forall j | 0 <= j < c.geom.tk
      ensures Times(PRow(c, n, i), f)(j) == 0.0
      ensures Times(Row(DScores(c, g, n), i), f)(j) == 0.0
    {
      assert c.P(n, i, j) == 0.0;
      assert Row(DScores(c, g, n), i)(j) == 0.0;
    }
    SumZero(0, c.geom.tk, Times(PRow(c, n, i), f));
    SumZero(0, c.geom.tk, Times(Row(DScores(c, g, n), i), f));
  }

  /** A row's share: dS against the scores' derivative, P against the values'. */
  lemma RowPairingIs(c: Call, t: Direction, g: Cotangent, n: int, i: int)
    requires c.Valid()
    ensures RowPairing(c, t, g, n, i)
         == Dot(c.geom.tk, Row(DScores(c, g, n), i), ScoreTangent(c, t, n, i))
            + Dot(c.geom.tk, PRow(c, n, i), Project(c.d, ValuesOf(c, t.v, n), RowTensor(g.out, n, i)))
  {
    hide Sum;
    DualZIs(c, t, n, i);
    ZPositive(c, n, i);
    if c.SeesKey(n, i) {
      SeenRowPairing(c, t, g, n, i);
    } else {
      hide Dot, Project, DScores, ScoreTangent, PRow;
      UnseenRow(c, g, n, i, ScoreTangent(c, t, n, i));
      UnseenRow(c, g, n, i, Project(c.d, ValuesOf(c, t.v, n), RowTensor(g.out, n, i)));
    }
  }

  /** The output as a combination of the values. */
  lemma OutIsCombination(c: Call, n: int, i: int, x: int)
    requires c.Valid()
    ensures OutRow(c, n, i)(x) == Combine(c.geom.tk, PRow(c, n, i), ValuesOf(c, c.v, n))(x)
  {
    hide Sum, Call.P;
    SumEqual(0, c.geom.tk, c.ValueTerms(n, i, x), Times(PRow(c, n, i), Col(ValuesOf(c, c.v, n), x)));
  }

  lemma SeenRowPairing(c: Call, t: Direction, g: Cotangent, n: int, i: int)
    requires c.Valid() && c.SeesKey(n, i)
    ensures DualZ(c, t, n, i).v > 0.0
    ensures RowPairing(c, t, g, n, i)
         == Dot(c.geom.tk, Row(DScores(c, g, n), i), ScoreTangent(c, t, n, i))
            + Dot(c.geom.tk, PRow(c, n, i), Project(c.d, ValuesOf(c, t.v, n), RowTensor(g.out, n, i)))
  {
    hide Sum, Dot, Project, ScoreTangent, DualZ, DualLse, DualOut, Call.P;
    DualLseIs(c, t, n, i);
    forall x | 0 <= x < c.d
      ensures Tangents(DualOutRow(c, t, n, i))(x) == OutTangent(c, t, n, i)(x)
      ensures OutRow(c, n, i)(x) == Combine(c.geom.tk, PRow(c, n, i), ValuesOf(c, c.v, n))(x)
    {
      DualOutIs(c, t, n, i, x);
      OutIsCombination(c, n, i, x);
    }
    RowAdjoint(c.geom.tk, c.d, PRow(c, n, i), ScoreTangent(c, t, n, i), RowTensor(g.out, n, i), g.lse(n, i),
               ValuesOf(c, c.v, n), ValuesOf(c, t.v, n), OutRow(c, n, i), PTangent(c, t, n, i),
               Tangents(DualOutRow(c, t, n, i)), Row(DScores(c, g, n), i));
  }

  /** dS against the scores' derivative, split into the queries' and the keys' parts. */
  lemma ScoreParts(c: Call, t: Direction, n: int, i: int, ds: Vec)
    requires c.Valid()
    ensures Dot(c.geom.tk, ds, ScoreTangent(c, t, n, i))
         == c.scale * Dot(c.geom.tk, ds, Project(c.d, ValuesOf(c, c.k, n), RowTensor(t.q, n, i)))
            + c.scale * Dot(c.geom.tk, ds, Project(c.d, ValuesOf(c, t.k, n), RowTensor(c.q, n, i)))
  {
    hide Sum, Dot;
    forall j | 0 <= j < c.geom.tk
      ensures ScoreTangent(c, t, n, i)(j)
           == c.scale * Project(c.d, ValuesOf(c, c.k, n), RowTensor(t.q, n, i))(j)
              + c.scale * Project(c.d, ValuesOf(c, t.k, n), RowTensor(c.q, n, i))(j)
    {
      DotSymmetric(c.d, RowTensor(t.q, n, i), Row(ValuesOf(c, c.k, n), j));
      DotSymmetric(c.d, RowTensor(c.q, n, i), Row(ValuesOf(c, t.k, n), j));
    }
    DotLinear(c.geom.tk, ds, c.scale, Project(c.d, ValuesOf(c, c.k, n), RowTensor(t.q, n, i)),
              c.scale, Project(c.d, ValuesOf(c, t.k, n), RowTensor(c.q, n, i)), ScoreTangent(c, t, n, i));
  }

  /** The queries' part of a row is the row of dQ against the direction. */
  lemma QueryPart(c: Call, t: Direction, g: Cotangent, n: int, i: int)
    requires c.Valid()
    ensures c.scale * Dot(c.geom.tk, Row(DScores(c, g, n), i), Project(c.d, ValuesOf(c, c.k, n), RowTensor(t.q, n, i)))
         == RowPairs(c.d, Slice(t.q, n), Slice(GradQ(c, g), n))(i)
  {
    hide Sum, Dot, DScores;
    var ds, k := Row(DScores(c, g, n), i), ValuesOf(c, c.k, n);
    Adjoint(c.geom.tk, c.d, ds, k, RowTensor(t.q, n, i));
    forall x | 0 <= x < c.d
      ensures Row(Slice(GradQ(c, g), n), i)(x) == c.scale * Combine(c.geom.tk, ds, k)(x)
    {
    }
    DotScale(c.d, RowTensor(t.q, n, i), c.scale, Combine(c.geom.tk, ds, k), Row(Slice(GradQ(c, g), n), i));
    DotEqual(c.d, Row(Slice(t.q, n), i), Row(Slice(GradQ(c, g), n), i), RowTensor(t.q, n, i),
             Row(Slice(GradQ(c, g), n), i));
  }

  function RowPairings(c: Call, t: Direction, g: Cotangent, n: int): Vec
    requires c.group > 0 && c.heads > 0
  {
    i => RowPairing(c, t, g, n, i)
  }

  /** The keys' and values' parts of a row, gathered over the rows of a head. */
  function KeyParts(c: Call, t: Direction, g: Cotangent, n: int): Vec
    requires c.group > 0 && c.heads > 0
  {
    RowProducts(c.geom.tk, c.d, DScores(c, g, n), Slice(c.q, n), ValuesOf(c, t.k, n))
  }

  function ValueParts(c: Call, t: Direction, g: Cotangent, n: int): Vec
    requires c.group > 0 && c.heads > 0
  {
    RowProducts(c.geom.tk, c.d, Probabilities(c, n), Slice(g.out, n), ValuesOf(c, t.v, n))
  }

  lemma RowInParts(c: Call, t: Direction, g: Cotangent, n: int, i: int)
    requires c.Valid()
    ensures RowPairing(c, t, g, n, i)
         == RowPairs(c.d, Slice(t.q, n), Slice(GradQ(c, g), n))(i)
            + (c.scale * KeyParts(c, t, g, n)(i) + 1.0 * ValueParts(c, t, g, n)(i))
  {
    hide Sum, Dot, RowPairing, DScores, ScoreTangent, RowPairs, GradQ, Call.P;
    RowPairingIs(c, t, g, n, i);
    ScoreParts(c, t, n, i, Row(DScores(c, g, n), i));
    QueryPart(c, t, g, n, i);
    ProjectEqual(c.geom.tk, c.d, Row(DScores(c, g, n), i), ValuesOf(c, t.k, n), RowTensor(c.q, n, i),
                 Row(Slice(c.q, n), i));
    ProjectEqual(c.geom.tk, c.d, PRow(c, n, i), ValuesOf(c, t.v, n), RowTensor(g.out, n, i),
                 Row(Slice(g.out, n), i));
    DotEqual(c.geom.tk, PRow(c, n, i), Project(c.d, ValuesOf(c, t.v, n), Row(Slice(g.out, n), i)),
             Row(Probabilities(c, n), i), Project(c.d, ValuesOf(c, t.v, n), Row(Slice(g.out, n), i)));
  }

  lemma ProjectEqual(n: int, d: int, a: Vec, m: Mat, f: Vec, f': Vec)
    requires forall x :: 0 <= x < d ==> f(x) == f'(x)
    ensures Dot(n, a, Project(d, m, f)) == Dot(n, a, Project(d, m, f'))
  {
    forall j | 0 <= j < n
      ensures Project(d, m, f)(j) == Project(d, m, f')(j)
    {
      DotEqual(d, Row(m, j), f, Row(m, j), f');
    }
    DotEqual(n, a, Project(d, m, f), a, Project(d, m, f'));
  }

  /** One head: its rows' shares are its dQ, and its parts of dK and dV, against the direction. */
  lemma HeadAdjoint(c: Call, t: Direction, g: Cotangent, n: int)
    requires c.Valid()
    ensures Sum(0, c.geom.tq, RowPairings(c, t, g, n))
         == Inner(c.geom.tq, c.d, Slice(t.q, n), Slice(GradQ(c, g), n))
            + Inner(c.geom.tk, c.d, ValuesOf(c, t.k, n), Slice(HeadGradK(c, g), n))
            + Inner(c.geom.tk, c.d, ValuesOf(c, t.v, n), Slice(HeadGradV(c, g), n))
  {
    hide Sum, RowPairing, KeyParts, ValueParts, RowPairs;
    var parts: Vec := i => c.scale * KeyParts(c, t, g, n)(i) + 1.0 * ValueParts(c, t, g, n)(i);
    forall i | 0 <= i < c.geom.tq
      ensures RowPairings(c, t, g, n)(i) == RowPairs(c.d, Slice(t.q, n), Slice(GradQ(c, g), n))(i) + parts(i)
    {
      RowInParts(c, t, g, n, i);
    }
    SumAdd(0, c.geom.tq, RowPairs(c.d, Slice(t.q, n), Slice(GradQ(c, g), n)), parts, RowPairings(c, t, g, n));
    SumLinear(0, c.geom.tq, c.scale, KeyParts(c, t, g, n), 1.0, ValueParts(c, t, g, n), parts);
    KeySums(c, t, g, n);
    ValueSums(c, t, g, n);
  }

  lemma KeySums(c: Call, t: Direction, g: Cotangent, n: int)
    requires c.Valid()
    ensures c.scale * Sum(0, c.geom.tq, KeyParts(c, t, g, n))
         == Inner(c.geom.tk, c.d, ValuesOf(c, t.k, n), Slice(HeadGradK(c, g), n))
  {
    hide Sum, Dot, DScores;
    var ds, kt := DScores(c, g, n), ValuesOf(c, t.k, n);
    BilinearExchange(c.geom.tq, c.geom.tk, c.d, ds, Slice(c.q, n), kt);
    var cols, grads := ColProducts(c.geom.tq, c.d, ds, Slice(c.q, n), kt), RowPairs(c.d, kt, Slice(HeadGradK(c, g), n));
    forall j | 0 <= j < c.geom.tk
      ensures grads(j) == c.scale * cols(j)
    {
      var comb := Combine(c.geom.tq, Col(ds, j), Slice(c.q, n));
      forall x | 0 <= x < c.d
        ensures Row(Slice(HeadGradK(c, g), n), j)(x) == c.scale * comb(x)
      {
      }
      DotScale(c.d, Row(kt, j), c.scale, comb, Row(Slice(HeadGradK(c, g), n), j));
    }
    SumScale(0, c.geom.tk, c.scale, cols, grads);
  }

  lemma ValueSums(c: Call, t: Direction, g: Cotangent, n: int)
    requires c.Valid()
    ensures Sum(0, c.geom.tq, ValueParts(c, t, g, n))
         == Inner(c.geom.tk, c.d, ValuesOf(c, t.v, n), Slice(HeadGradV(c, g), n))
  {
    hide Sum, Dot, Probabilities;
    var p, vt := Probabilities(c, n), ValuesOf(c, t.v, n);
    BilinearExchange(c.geom.tq, c.geom.tk, c.d, p, Slice(g.out, n), vt);
    var cols := ColProducts(c.geom.tq, c.d, p, Slice(g.out, n), vt);
    var grads := RowPairs(c.d, vt, Slice(HeadGradV(c, g), n));
    forall j | 0 <= j < c.geom.tk
      ensures grads(j) == cols(j)
    {
      DotEqual(c.d, Row(vt, j), Row(Slice(HeadGradV(c, g), n), j), Row(vt, j),
               Combine(c.geom.tq, Col(p, j), Slice(g.out, n)));
    }
    SumEqual(0, c.geom.tk, grads, cols);
  }

  // ----- from heads to slices -----

  function HeadInners(c: Call, n: int, a: Tensor, b: Tensor): real
    requires c.group > 0
  {
    Inner(c.geom.tk, c.d, ValuesOf(c, a, n), Slice(b, n))
  }

  function HeadTerms(c: Call, a: Tensor, b: Tensor): Vec
    requires c.group > 0
  {
    n => HeadInners(c, n, a, b)
  }

  function PartialSum(lo: int, hi: int, b: Tensor): Mat {
    (j, x) => Sum(lo, hi, (n: int) => b(n, j, x))
  }

  /** A slice's inner product with a sum over heads is the sum of the inner products. */
  lemma {:induction false} InnerOfSum(c: Call, y: int, lo: int, hi: int, a: Tensor, b: Tensor)
    requires c.group > 0 && lo <= hi
    requires forall n :: lo <= n < hi ==> n / c.group == y
    ensures Inner(c.geom.tk, c.d, Slice(a, y), PartialSum(lo, hi, b)) == Sum(lo, hi, HeadTerms(c, a, b))
    decreases hi - lo
  {
    if lo == hi {
      InnerZero(c.geom.tk, c.d, Slice(a, y), PartialSum(lo, hi, b));
    } else {
      InnerOfSum(c, y, lo, hi - 1, a, b);
      InnerPlus(c.geom.tk, c.d, Slice(a, y), PartialSum(lo, hi - 1, b), Slice(b, hi - 1), PartialSum(lo, hi, b));
      assert (hi - 1) / c.group == y;
      InnerEqual(c.geom.tk, c.d, Slice(a, y), Slice(b, hi - 1), ValuesOf(c, a, hi - 1), Slice(b, hi - 1));
    }
  }

  function TensorTerms(n: int, d: int, a: Tensor, b: Tensor): Vec {
    y => Inner(n, d, Slice(a, y), Slice(b, y))
  }

  /** The inner product of two tensors of m slices, n x d each. */
  function TensorInner(m: int, n: int, d: int, a: Tensor, b: Tensor): real {
    Sum(0, m, TensorTerms(n, d, a, b))
  }

  lemma HeadsToSlices(c: Call, a: Tensor, b: Tensor)
    requires c.Valid()
    ensures Sum(0, c.Heads(), HeadTerms(c, a, b)) == TensorInner(c.slices, c.geom.tk, c.d, a, GroupSum(c, b))
  {
    hide Sum, Inner;
    var bounds: int -> int := y => y * c.group;
    var parts := TensorTerms(c.geom.tk, c.d, a, GroupSum(c, b));
    forall y | 0 <= y < c.slices
      ensures bounds(y) <= bounds(y + 1)
      ensures parts(y) == Sum(bounds(y), bounds(y + 1), HeadTerms(c, a, b))
    {
      SliceTerm(c, y, a, b);
    }
    SumPieces(c.slices, bounds, HeadTerms(c, a, b), parts);
  }

  lemma SliceTerm(c: Call, y: int, a: Tensor, b: Tensor)
    requires c.Valid()
    ensures y * c.group <= (y + 1) * c.group
    ensures TensorTerms(c.geom.tk, c.d, a, GroupSum(c, b))(y)
         == Sum(y * c.group, (y + 1) * c.group, HeadTerms(c, a, b))
  {
    hide Sum, Inner;
    var lo, hi := y * c.group, (y + 1) * c.group;
    assert hi == lo + c.group;
    forall n | lo <= n < hi
      ensures n / c.group == y
    {
      DivUnique(n, c.group, y, n - lo);
    }
    InnerOfSum(c, y, lo, hi, a, b);
    InnerEqual(c.geom.tk, c.d, Slice(a, y), Slice(GroupSum(c, b), y), Slice(a, y), PartialSum(lo, hi, b));
  }

  // ----- the whole call -----

  function HeadPairings(c: Call, t: Direction, g: Cotangent): Vec
    requires c.group > 0 && c.heads > 0
  {
    n => Sum(0, c.geom.tq, RowPairings(c, t, g, n))
  }

  /** The gradients are the adjoint of attention: for every direction of the inputs, the cotangent
      against the derivative of the outputs is the gradients against the direction. */
  lemma AttentionAdjoint(c: Call, t: Direction, g: Cotangent)
    requires c.Valid()
    ensures Sum(0, c.Heads(), HeadPairings(c, t, g))
         == TensorInner(c.Heads(), c.geom.tq, c.d, t.q, GradQ(c, g))
            + TensorInner(c.slices, c.geom.tk, c.d, t.k, GradK(c, g))
            + TensorInner(c.slices, c.geom.tk, c.d, t.v, GradV(c, g))
  {
    hide Sum, Inner, RowPairings, GradQ, HeadGradK, HeadGradV, GroupSum;
    var kTerms, vTerms := HeadTerms(c, t.k, HeadGradK(c, g)), HeadTerms(c, t.v, HeadGradV(c, g));
    var kv := Plus(kTerms, vTerms);
    forall n | 0 <= n < c.Heads()
      ensures HeadPairings(c, t, g)(n) == TensorTerms(c.geom.tq, c.d, t.q, GradQ(c, g))(n) + kv(n)
    {
      HeadAdjoint(c, t, g, n);
      assert kTerms(n) == HeadInners(c, n, t.k, HeadGradK(c, g)) && vTerms(n) == HeadInners(c, n, t.v, HeadGradV(c, g));
    }
    SumAdd(0, c.Heads(), TensorTerms(c.geom.tq, c.d, t.q, GradQ(c, g)), kv, HeadPairings(c, t, g));
    SumAdd(0, c.Heads(), kTerms, vTerms, kv);
    HeadsToSlices(c, t.k, HeadGradK(c, g));
    HeadsToSlices(c, t.v, HeadGradV(c, g));
  }

  /** Each row of dS sums to the row's log-sum-exp cotangent; a row that sees no key has no dS and a
      zero dQ. */
  lemma ScoreGradientSums(c: Call, g: Cotangent, n: int, i: int)
    requires c.Valid()
    ensures Sum(0, c.geom.tk, Row(DScores(c, g, n), i)) == if c.SeesKey(n, i) then g.lse(n, i) else 0.0
    ensures !c.SeesKey(n, i) ==> forall x :: GradQ(c, g)(n, i, x) == 0.0
  {
    hide Sum;
    var ds, p, ones := Row(DScores(c, g, n), i), PRow(c, n, i), (j: int) => 1.0;
    SumEqual(0, c.geom.tk, ds, Times(ds, ones));
    if c.SeesKey(n, i) {
      SeenScoreGradientSum(c, g, n, i);
    } else {
      UnseenRow(c, g, n, i, ones);
      forall x
        ensures GradQ(c, g)(n, i, x) == 0.0
      {
        UnseenRow(c, g, n, i, Col(ValuesOf(c, c.k, n), x));
        assert Combine(c.geom.tk, ds, ValuesOf(c, c.k, n))(x) == 0.0;
      }
    }
  }

  lemma SeenScoreGradientSum(c: Call, g: Cotangent, n: int, i: int)
    requires c.Valid() && c.SeesKey(n, i)
    ensures Sum(0, c.geom.tk, Row(DScores(c, g, n), i)) == g.lse(n, i)
  {
    hide Sum, Dot, Call.P;
    var ds, p := Row(DScores(c, g, n), i), PRow(c, n, i);
    var dp := Project(c.d, ValuesOf(c, c.v, n), RowTensor(g.out, n, i));
    var e := Delta(c, g, n, i);
    PSumsToOne(c, n, i, p);
    forall x | 0 <= x < c.d
      ensures OutRow(c, n, i)(x) == Combine(c.geom.tk, p, ValuesOf(c, c.v, n))(x)
    {
      OutIsCombination(c, n, i, x);
    }
    DotEqual(c.d, RowTensor(g.out, n, i), OutRow(c, n, i), RowTensor(g.out, n, i),
             Combine(c.geom.tk, p, ValuesOf(c, c.v, n)));
    Adjoint(c.geom.tk, c.d, p, ValuesOf(c, c.v, n), RowTensor(g.out, n, i));
    ScoreSum(c.geom.tk, p, dp, e, ds);
  }

  lemma ScoreSum(tk: int, p: Vec, dp: Vec, e: real, ds: Vec)
    requires forall j :: 0 <= j < tk ==> ds(j) == p(j) * (dp(j) - e)
    ensures Sum(0, tk, ds) == Dot(tk, p, dp) - e * Sum(0, tk, p)
  {
    forall j | 0 <= j < tk
      ensures ds(j) == 1.0 * Times(p, dp)(j) + (-e) * p(j)
    {
    }
    SumLinear(0, tk, 1.0, Times(p, dp), -e, p, ds);
  }
}
