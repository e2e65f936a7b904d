/** The blocked backward pass: key blocks in order, each against the blocks of queries that see it,
    a tile at a time; the query gradient summed per block of queries, the key and value gradients
    per block of keys. */
module AttentionBackward {
  import opened Sums
  import opened Vectors
  import opened Analysis
  import opened AttentionBand
  import opened AttentionContract
  import opened AttentionGradient
  import opened AttentionForward
  import opened Chunks

  /** The element at (r, col) of a tile kept row by row. */
  function Entry(p: seq<seq<real>>, r: int, col: int): real { At(RowAt(p, r), col) }

  // ----- one tile's probabilities and score gradients -----

  /** exp(s - m) / sum from any shift and sum that together are the row's softmax: the forward pass's
      maximum and sum, or the log-sum-exp and 1. */
  ghost predicate Normalises(c: Call, n: int, i: int, shift: real, sum: real)
    requires c.Valid()
  {
    c.SeesKey(n, i) ==> sum * c.e.exp(shift) == c.Z(n, i)
  }

  lemma NormalisedIsP(c: Call, n: int, i: int, j: int, shift: real, sum: real)
    requires c.Valid() && 0 <= j < c.geom.tk && c.Visible(n, i, j)
    requires Normalises(c, n, i, shift, sum)
    ensures sum > 0.0
    ensures c.e.exp(c.Score(n, i, j) - shift) / sum == c.P(n, i, j)
  {
    hide Sum, Call.Z, Call.Score;
    ZPositive(c, n, i);
    SignOfScaled(sum, c.e.exp(shift), c.Z(n, i));
    PIsRatio(c, n, i, j);
    ExpShift(c.e, c.Score(n, i, j), shift);
    QuotientOfScaled(c.e.exp(c.Score(n, i, j) - shift), sum, c.e.exp(shift));
  }

  /** The tile of P and dS that a head's rows should hold. */
  ghost predicate TileHolds(c: Call, g: Cotangent, q0: int, q1: int, k0: int, k1: int, p: seq<seq<real>>,
                            ds: seq<seq<real>>)
    requires c.Valid() && q0 < q1
  {
    forall n, i, j :: 0 <= n < c.Heads() && q0 <= i < q1 && k0 <= j < k1 ==>
      && Entry(p, RowOf(n, i, q0, q1 - q0), j - k0) == c.P(n, i, j)
      && Entry(ds, RowOf(n, i, q0, q1 - q0), j - k0) == DScores(c, g, n)(i, j)
  }

  /** A thread's probability, from the normaliser it is handed; nothing where the key is hidden. */
  function ElementP(e: Exponential, visible: bool, score: real, m: real, s: real): real
    requires visible ==> s != 0.0
  {
    if visible then e.exp(score - m) / s else 0.0
  }

  function ElementDS(p: real, dp: real, delta: real): real { p * (dp - delta) }

  /** The gradient kernel on one row of a tile, a thread an element. */
  method GradRow(e: Exponential, vis: int -> bool, cols: nat, scores: Vec, dprobs: Vec, m: real, s: real, delta: real)
    returns (p: seq<real>, ds: seq<real>)
    requires forall col :: 0 <= col < cols && vis(col) ==> s != 0.0
    ensures |p| == |ds| == cols
    ensures forall col :: 0 <= col < cols ==> p[col] == ElementP(e, vis(col), scores(col), m, s)
    ensures forall col :: 0 <= col < cols ==> ds[col] == ElementDS(p[col], dprobs(col), delta)
  {
    hide ElementP, ElementDS;
    var probs, dscores := new real[cols], new real[cols];
    for col := 0 to cols
      invariant forall x :: 0 <= x < col ==> probs[x] == ElementP(e, vis(x), scores(x), m, s)
      invariant forall x :: 0 <= x < col ==> dscores[x] == ElementDS(probs[x], dprobs(x), delta)
    {
      var value := ElementP(e, vis(col), scores(col), m, s);
      probs[col] := value;
      dscores[col] := ElementDS(value, dprobs(col), delta);
    }
    p, ds := probs[..], dscores[..];
  }

  /** The two matrix products and the rows' constants a tile starts from. */
  function TileDProbs(c: Call, dOut: Tensor, q0: int, qn: int, k0: int): Mat
    requires c.group > 0 && qn > 0
  {
    (r, col) =>
      Project(c.d, ValuesOf(c, c.v, HeadOf(r, qn)), RowTensor(dOut, HeadOf(r, qn), QueryOf(q0, r, qn)))(k0 + col)
  }

  /** Row r of the tile as the kernel leaves it. */
  ghost predicate RowHolds(c: Call, g: Cotangent, n: int, i: int, k0: int, k1: int, p: seq<real>, ds: seq<real>)
    requires c.Valid()
  {
    && |p| == |ds| == k1 - k0
    && forall j :: k0 <= j < k1 ==> p[j - k0] == PRow(c, n, i)(j) && ds[j - k0] == Row(DScores(c, g, n), i)(j)
  }

  method TileGradRow(c: Call, g: Cotangent, q0: int, q1: int, k0: nat, k1: nat, r: nat, shift: real, sum: real,
                     delta: real)
    returns (p: seq<real>, ds: seq<real>)
    requires c.Valid() && q0 < q1 && k0 <= k1 <= c.geom.tk
    requires Normalises(c, HeadOf(r, q1 - q0), QueryOf(q0, r, q1 - q0), shift, sum)
    requires delta == Delta(c, g, HeadOf(r, q1 - q0), QueryOf(q0, r, q1 - q0))
    ensures RowHolds(c, g, HeadOf(r, q1 - q0), QueryOf(q0, r, q1 - q0), k0, k1, p, ds)
  {
    hide Sum, Normalises, Delta, TileVisibles, Dot, Call.P, Call.Visible;
    ghost var n, i := HeadOf(r, q1 - q0), QueryOf(q0, r, q1 - q0);
    TileVisiblesExact(c, q0, q1, k0, k1, r);
    TileScoresExact(c, q0, q1 - q0, k0, k1, r);
    var vis := TileVisibles(c, q0, q1, k0, r);
    var scores, dprobs := Row(TileScores(c, q0, q1 - q0, k0), r), Row(TileDProbs(c, g.out, q0, q1 - q0, k0), r);
    forall col | 0 <= col < k1 - k0 && vis(col)
      ensures sum != 0.0
    {
      EntryFacts(c, n, i, k0, k1, vis, scores, k0 + col, shift, sum);
    }
    p, ds := GradRow(c.e, vis, k1 - k0, scores, dprobs, shift, sum, delta);
    forall j | k0 <= j < k1
      ensures p[j - k0] == PRow(c, n, i)(j) && ds[j - k0] == Row(DScores(c, g, n), i)(j)
    {
      EntryFacts(c, n, i, k0, k1, vis, scores, j, shift, sum);
      assert dprobs(j - k0) == Project(c.d, ValuesOf(c, c.v, n), RowTensor(g.out, n, i))(k0 + (j - k0));
    }
  }

  lemma EntryFacts(c: Call, n: int, i: int, k0: int, k1: int, vis: int -> bool, scores: Vec, j: int, shift: real,
                   sum: real)
    requires c.Valid() && 0 <= k0 <= j < k1 <= c.geom.tk
    requires SeeAlike(c, n, i, k0, k1, vis) && HoldScores(c, n, i, k0, k1, scores)
    requires Normalises(c, n, i, shift, sum)
    ensures vis(j - k0) ==> sum > 0.0 && c.e.exp(scores(j - k0) - shift) / sum == c.P(n, i, j)
    ensures !vis(j - k0) ==> c.P(n, i, j) == 0.0
  {
    hide Sum, Call.Z, Normalises;
    assert vis(j - k0) == Visibles(c, n, i)(j) && scores(j - k0) == c.Scores(n, i)(j);
    if vis(j - k0) {
      NormalisedIsP(c, n, i, j, shift, sum);
    }
  }

  /** The gradient kernel over a tile. */
  method TileGrads(c: Call, g: Cotangent, q0: int, q1: int, k0: nat, k1: nat, shift: Mat, sum: Mat, delta: Mat)
    returns (p: seq<seq<real>>, ds: seq<seq<real>>)
    requires c.Valid() && q0 < q1 && k0 <= k1 <= c.geom.tk
    requires forall n, i :: 0 <= n < c.Heads() && q0 <= i < q1 ==>
               Normalises(c, n, i, shift(n, i), sum(n, i)) && delta(n, i) == Delta(c, g, n, i)
    ensures TileHolds(c, g, q0, q1, k0, k1, p, ds)
  {
    hide Sum, Normalises, Delta, RowHolds;
    p, ds := [], [];
    while |p| < c.Rows(q1 - q0)
      invariant |p| == |ds| <= c.Rows(q1 - q0)
      invariant forall r :: 0 <= r < |p| ==>
                  RowHolds(c, g, HeadOf(r, q1 - q0), QueryOf(q0, r, q1 - q0), k0, k1, p[r], ds[r])
    {
      var r := |p|;
      HeadInRange(c, r, q1 - q0);
      var n, i := HeadOf(r, q1 - q0), QueryOf(q0, r, q1 - q0);
      var row, drow := TileGradRow(c, g, q0, q1, k0, k1, r, shift(n, i), sum(n, i), delta(n, i));
      p, ds := p + [row], ds + [drow];
    }
    RowsHoldTile(c, g, q0, q1, k0, k1, p, ds);
  }

  lemma HeadInRange(c: Call, r: int, qn: int)
    requires qn > 0 && 0 <= r < c.Rows(qn)
    ensures 0 <= HeadOf(r, qn) < c.Heads()
  {
    if HeadOf(r, qn) >= c.Heads() {
      ProductGrows(c.Heads(), r / qn, qn);
    }
  }

  lemma RowsHoldTile(c: Call, g: Cotangent, q0: int, q1: int, k0: int, k1: int, p: seq<seq<real>>, ds: seq<seq<real>>)
    requires c.Valid() && q0 < q1 && |p| == |ds| == c.Rows(q1 - q0)
    requires forall r :: 0 <= r < |p| ==>
               RowHolds(c, g, HeadOf(r, q1 - q0), QueryOf(q0, r, q1 - q0), k0, k1, p[r], ds[r])
    ensures TileHolds(c, g, q0, q1, k0, k1, p, ds)
  {
    hide Sum, DScores, Call.P, Call.Rows, Call.Heads;
    forall n, i, j | 0 <= n < c.Heads() && q0 <= i < q1 && k0 <= j < k1
      ensures Entry(p, RowOf(n, i, q0, q1 - q0), j - k0) == c.P(n, i, j)
      ensures Entry(ds, RowOf(n, i, q0, q1 - q0), j - k0) == DScores(c, g, n)(i, j)
    {
      RowOfExact(c, n, i, q0, q1 - q0);
      var r := RowOf(n, i, q0, q1 - q0);
      assert RowHolds(c, g, HeadOf(r, q1 - q0), QueryOf(q0, r, q1 - q0), k0, k1, p[r], ds[r]);
      assert p[r][j - k0] == PRow(c, n, i)(j) && ds[r][j - k0] == Row(DScores(c, g, n), i)(j);
    }
  }

  // ----- running sums of tensors -----

  function OrZero(o: Option<Tensor>): Tensor { if o.Some? then o.value else (n, i, x) => 0.0 }

  /** The first term, or the sum so far and one more. */
  function AddTo(o: Option<Tensor>, t: Tensor): Tensor {
    if o.Some? then var s := o.value; (n, i, x) => s(n, i, x) + t(n, i, x) else t
  }

  lemma AddToIs(o: Option<Tensor>, t: Tensor, n: int, i: int, x: int)
    ensures AddTo(o, t)(n, i, x) == OrZero(o)(n, i, x) + t(n, i, x)
  {
  }

  // ----- the transposed products: a head's part of dV and dK -----

  /** M^T A over the first `upto` queries, one head at a time. */
  function HeadPart(m: int -> Mat, a: Tensor, upto: int): Tensor {
    (n, j, x) => Combine(upto, Col(m(n), j), Slice(a, n))(x)
  }

  function ProbabilitiesOf(c: Call): int -> Mat
    requires c.group > 0 && c.heads > 0
  {
    n => Probabilities(c, n)
  }

  function DScoresOf(c: Call, g: Cotangent): int -> Mat
    requires c.group > 0 && c.heads > 0
  {
    n => DScores(c, g, n)
  }

  function TileTerms(a: Tensor, q0: int, q1: int, k0: int, tile: seq<seq<real>>, n: int, j: int, x: int): Vec {
    i => Entry(tile, RowOf(n, i, q0, q1 - q0), j - k0) * a(n, i, x)
  }

  /** A tile's transposed product, one head at a time. */
  function TileHead(a: Tensor, q0: int, q1: int, k0: int, tile: seq<seq<real>>): Tensor {
    (n, j, x) => Sum(q0, q1, TileTerms(a, q0, q1, k0, tile, n, j, x))
  }

  /** A tile holds m on its rows, and m is 0 on the rest of the block b0..b1 for its keys. */
  ghost predicate TileOf(c: Call, m: int -> Mat, b0: int, b1: int, q0: int, q1: int, k0: int, k1: int,
                         tile: seq<seq<real>>)
  {
    && b0 <= q0 <= q1 <= b1
    && (forall n, i, j :: 0 <= n < c.Heads() && q0 <= i < q1 && k0 <= j < k1 ==>
          Entry(tile, RowOf(n, i, q0, q1 - q0), j - k0) == m(n)(i, j))
    && (forall n, i, j :: 0 <= n < c.Heads() && (b0 <= i < q0 || q1 <= i < b1) && k0 <= j < k1 ==> m(n)(i, j) == 0.0)
  }

  /** With its tile a block of queries is added whole. */
  lemma TileAddsBlock(c: Call, m: int -> Mat, a: Tensor, b0: int, b1: int, q0: int, q1: int, k0: int, k1: int,
                      tile: seq<seq<real>>, n: int, j: int, x: int)
    requires TileOf(c, m, b0, b1, q0, q1, k0, k1, tile)
    requires 0 <= b0 && 0 <= n < c.Heads() && k0 <= j < k1
    ensures HeadPart(m, a, b1)(n, j, x) == HeadPart(m, a, b0)(n, j, x) + TileHead(a, q0, q1, k0, tile)(n, j, x)
  {
    hide Sum, Combine;
    var f := Times(Col(m(n), j), Col(Slice(a, n), x));
    CombineAt(b0, Col(m(n), j), Slice(a, n), x);
    CombineAt(b1, Col(m(n), j), Slice(a, n), x);
    SumSplit(0, b0, b1, f);
    SumSplit(b0, q0, b1, f);
    SumSplit(q0, q1, b1, f);
    forall i | b0 <= i < q0 || q1 <= i < b1
      ensures f(i) == 0.0
    {
      assert m(n)(i, j) == 0.0;
    }
    SumZero(b0, q0, f);
    SumZero(q1, b1, f);
    forall i | q0 <= i < q1
      ensures f(i) == TileTerms(a, q0, q1, k0, tile, n, j, x)(i)
    {
      assert Entry(tile, RowOf(n, i, q0, q1 - q0), j - k0) == m(n)(i, j);
    }
    SumEqual(q0, q1, f, TileTerms(a, q0, q1, k0, tile, n, j, x));
  }

  /** A block's key gradient holds the sum over its group's heads and the first `upto` queries. */
  ghost predicate KeysHold(c: Call, m: int -> Mat, a: Tensor, upto: int, k0: int, k1: int, acc: Option<Tensor>) {
    forall y, j, x :: 0 <= y < c.slices && k0 <= j < k1 && 0 <= x < c.d ==>
      OrZero(acc)(y, j, x) == GroupSum(c, HeadPart(m, a, upto))(y, j, x)
  }

  lemma GroupAdds(c: Call, a: Tensor, b: Tensor, ab: Tensor, y: int, j: int, x: int)
    requires 0 <= y < c.slices
    requires forall n :: 0 <= n < c.Heads() ==> ab(n, j, x) == a(n, j, x) + b(n, j, x)
    ensures GroupSum(c, ab)(y, j, x) == GroupSum(c, a)(y, j, x) + GroupSum(c, b)(y, j, x)
  {
    hide Sum;
    ProductGrows(0, y, c.group);
    ProductGrows(y + 1, c.slices, c.group);
    SumAdd(y * c.group, (y + 1) * c.group, (n: int) => a(n, j, x), (n: int) => b(n, j, x), (n: int) => ab(n, j, x));
  }

  lemma GroupOfZeros(c: Call, t: Tensor, y: int, j: int, x: int)
    requires forall n :: t(n, j, x) == 0.0
    ensures GroupSum(c, t)(y, j, x) == 0.0
  {
    var f: Vec := n => t(n, j, x);
    SumZero(y * c.group, (y + 1) * c.group, f);
    assert GroupSum(c, t)(y, j, x) == Sum(y * c.group, (y + 1) * c.group, f);
  }

  lemma KeysStart(c: Call, m: int -> Mat, a: Tensor, k0: int, k1: int)
    ensures KeysHold(c, m, a, 0, k0, k1, None)
  {
    forall y, j, x | 0 <= y < c.slices && k0 <= j < k1 && 0 <= x < c.d
      ensures GroupSum(c, HeadPart(m, a, 0))(y, j, x) == 0.0
    {
      forall n: int
        ensures HeadPart(m, a, 0)(n, j, x) == 0.0
      {
        CombineAt(0, Col(m(n), j), Slice(a, n), x);
      }
      GroupOfZeros(c, HeadPart(m, a, 0), y, j, x);
    }
  }

  lemma KeysAdvance(c: Call, m: int -> Mat, a: Tensor, b0: int, b1: int, q0: int, q1: int, k0: int, k1: int,
                    tile: seq<seq<real>>, acc: Option<Tensor>)
    requires 0 <= b0 && TileOf(c, m, b0, b1, q0, q1, k0, k1, tile)
    requires KeysHold(c, m, a, b0, k0, k1, acc)
    ensures KeysHold(c, m, a, b1, k0, k1, Some(AddTo(acc, GroupSum(c, TileHead(a, q0, q1, k0, tile)))))
  {
    hide Sum, GroupSum, HeadPart, TileHead, TileOf, AddTo;
    var add := GroupSum(c, TileHead(a, q0, q1, k0, tile));
    forall y, j, x | 0 <= y < c.slices && k0 <= j < k1 && 0 <= x < c.d
      ensures OrZero(Some(AddTo(acc, add)))(y, j, x) == GroupSum(c, HeadPart(m, a, b1))(y, j, x)
    {
      forall n | 0 <= n < c.Heads()
        ensures HeadPart(m, a, b1)(n, j, x) == HeadPart(m, a, b0)(n, j, x) + TileHead(a, q0, q1, k0, tile)(n, j, x)
      {
        TileAddsBlock(c, m, a, b0, b1, q0, q1, k0, k1, tile, n, j, x);
      }
      GroupAdds(c, HeadPart(m, a, b0), TileHead(a, q0, q1, k0, tile), HeadPart(m, a, b1), y, j, x);
      AddToIs(acc, add, y, j, x);
    }
  }

  /** A block none of whose queries sees the keys adds nothing. */
  lemma KeysSkip(c: Call, m: int -> Mat, a: Tensor, b0: int, b1: int, k0: int, k1: int, acc: Option<Tensor>)
    requires 0 <= b0 && TileOf(c, m, b0, b1, b0, b0, k0, k1, [])
    requires KeysHold(c, m, a, b0, k0, k1, acc)
    ensures KeysHold(c, m, a, b1, k0, k1, acc)
  {
    hide GroupSum, HeadPart, TileOf;
    forall y, j, x | 0 <= y < c.slices && k0 <= j < k1 && 0 <= x < c.d
      ensures GroupSum(c, HeadPart(m, a, b1))(y, j, x) == GroupSum(c, HeadPart(m, a, b0))(y, j, x)
    {
      forall n | 0 <= n < c.Heads()
        ensures HeadPart(m, a, b1)(n, j, x) == HeadPart(m, a, b0)(n, j, x) + ZeroTensor()(n, j, x)
      {
        TileAddsBlock(c, m, a, b0, b1, b0, b0, k0, k1, [], n, j, x);
        assert TileHead(a, b0, b0, k0, [])(n, j, x) == 0.0;
      }
      GroupAdds(c, HeadPart(m, a, b0), ZeroTensor(), HeadPart(m, a, b1), y, j, x);
      GroupOfZeros(c, ZeroTensor(), y, j, x);
    }
  }

  function ZeroTensor(): Tensor { (n, i, x) => 0.0 }

  // ----- the queries' gradient -----

  /** scale m K over the first `upto` keys. */
  function PartialQ(c: Call, m: int -> Mat, upto: int): Tensor
    requires c.group > 0 && c.heads > 0
  {
    (n, i, x) => c.scale * Combine(upto, Row(m(n), i), ValuesOf(c, c.k, n))(x)
  }

  function TileKeyTerms(c: Call, k0: int, row: seq<real>, n: int, x: int): Vec
    requires c.group > 0
  {
    col => At(row, col) * c.k(n / c.group, k0 + col, x)
  }

  /** A tile's part of dQ, padded with zeros to its block of queries. */
  function TileQ(c: Call, q0: int, q1: int, k0: int, k1: int, ds: seq<seq<real>>): Tensor
    requires c.group > 0
  {
    (n, i, x) =>
      if q0 <= i < q1
      then Sum(0, k1 - k0, TileKeyTerms(c, k0, RowAt(ds, RowOf(n, i, q0, q1 - q0)), n, x)) * c.scale
      else 0.0
  }

  ghost predicate QueriesHold(c: Call, m: int -> Mat, b0: int, b1: int, upto: int, acc: Option<Tensor>)
    requires c.Valid()
  {
    forall n, i, x :: 0 <= n < c.Heads() && b0 <= i < b1 && 0 <= x < c.d ==>
      OrZero(acc)(n, i, x) == PartialQ(c, m, upto)(n, i, x)
  }

  lemma TileAddsKeys(c: Call, m: int -> Mat, b0: int, b1: int, q0: int, q1: int, k0: nat, k1: int,
                     ds: seq<seq<real>>, n: int, i: int, x: int)
    requires c.Valid() && k0 <= k1
    requires TileOf(c, m, b0, b1, q0, q1, k0, k1, ds)
    requires 0 <= n < c.Heads() && b0 <= i < b1
    ensures PartialQ(c, m, k1)(n, i, x) == PartialQ(c, m, k0)(n, i, x) + TileQ(c, q0, q1, k0, k1, ds)(n, i, x)
  {
    hide Sum, Combine;
    var f := Times(Row(m(n), i), Col(ValuesOf(c, c.k, n), x));
    CombineAt(k0, Row(m(n), i), ValuesOf(c, c.k, n), x);
    CombineAt(k1, Row(m(n), i), ValuesOf(c, c.k, n), x);
    SumSplit(0, k0, k1, f);
    var rest := Sum(k0, k1, f);
    assert PartialQ(c, m, k1)(n, i, x) == c.scale * (Sum(0, k0, f) + rest);
    assert PartialQ(c, m, k0)(n, i, x) == c.scale * Sum(0, k0, f);
    if q0 <= i < q1 {
      var t := TileKeyTerms(c, k0, RowAt(ds, RowOf(n, i, q0, q1 - q0)), n, x);
      forall col | 0 <= col < k1 - k0
        ensures t(col) == f(col + k0)
      {
        assert Entry(ds, RowOf(n, i, q0, q1 - q0), (k0 + col) - k0) == m(n)(i, k0 + col);
      }
      SumShift(0, k1 - k0, k0, f, t);
      DistributeScale(c.scale, Sum(0, k0, f), rest);
    } else {
      forall j | k0 <= j < k1
        ensures f(j) == 0.0
      {
        assert m(n)(i, j) == 0.0;
      }
      SumZero(k0, k1, f);
    }
  }

  lemma DistributeScale(a: real, x: real, y: real)
    ensures a * (x + y) == a * x + y * a
  {
  }

  lemma QueriesAdvance(c: Call, m: int -> Mat, b0: int, b1: int, q0: int, q1: int, k0: nat, k1: int,
                       ds: seq<seq<real>>, acc: Option<Tensor>)
    requires c.Valid() && k0 <= k1
    requires TileOf(c, m, b0, b1, q0, q1, k0, k1, ds)
    requires QueriesHold(c, m, b0, b1, k0, acc)
    ensures QueriesHold(c, m, b0, b1, k1, Some(AddTo(acc, TileQ(c, q0, q1, k0, k1, ds))))
  {
    hide Sum, PartialQ, TileQ, TileOf, AddTo;
    var add := TileQ(c, q0, q1, k0, k1, ds);
    forall n, i, x | 0 <= n < c.Heads() && b0 <= i < b1 && 0 <= x < c.d
      ensures OrZero(Some(AddTo(acc, add)))(n, i, x) == PartialQ(c, m, k1)(n, i, x)
    {
      TileAddsKeys(c, m, b0, b1, q0, q1, k0, k1, ds, n, i, x);
      AddToIs(acc, add, n, i, x);
    }
  }

  lemma QueriesSkip(c: Call, m: int -> Mat, b0: int, b1: int, k0: nat, k1: int, acc: Option<Tensor>)
    requires c.Valid() && k0 <= k1
    requires TileOf(c, m, b0, b1, b0, b0, k0, k1, [])
    requires QueriesHold(c, m, b0, b1, k0, acc)
    ensures QueriesHold(c, m, b0, b1, k1, acc)
  {
    hide Sum, PartialQ, TileOf;
    forall n, i, x | 0 <= n < c.Heads() && b0 <= i < b1 && 0 <= x < c.d
      ensures OrZero(acc)(n, i, x) == PartialQ(c, m, k1)(n, i, x)
    {
      TileAddsKeys(c, m, b0, b1, b0, b0, k0, k1, [], n, i, x);
    }
  }

  lemma QueriesStart(c: Call, m: int -> Mat, b0: int, b1: int)
    requires c.Valid()
    ensures QueriesHold(c, m, b0, b1, 0, None)
  {
    forall n, i, x | 0 <= n < c.Heads() && b0 <= i < b1 && 0 <= x < c.d
      ensures PartialQ(c, m, 0)(n, i, x) == 0.0
    {
      CombineAt(0, Row(m(n), i), ValuesOf(c, c.k, n), x);
    }
  }

  // ----- which tiles are taken -----

  /** The block of kb keys that key j is in has queries picked for it. */
  predicate KeyTaken(c: Call, kb: nat, j: int)
    requires kb > 0
  {
    c.geom.QueriesFit(BlockStart(j, kb), MinInt(BlockStart(j, kb) + kb, c.geom.tk))
  }

  /** m on the keys that are taken, 0 on the rest. */
  function OnTaken(c: Call, kb: nat, m: int -> Mat): int -> Mat
    requires kb > 0
  {
    n => (i, j) => if KeyTaken(c, kb, j) then m(n)(i, j) else 0.0
  }

  function TakenProbabilities(c: Call, kb: nat): int -> Mat
    requires c.group > 0 && c.heads > 0 && kb > 0
  {
    OnTaken(c, kb, ProbabilitiesOf(c))
  }

  function TakenDScores(c: Call, g: Cotangent, kb: nat): int -> Mat
    requires c.group > 0 && c.heads > 0 && kb > 0
  {
    OnTaken(c, kb, DScoresOf(c, g))
  }

  lemma OnTakenIs(c: Call, kb: nat, m: int -> Mat, k0: int, k1: int, n: int, i: int, j: int)
    requires kb > 0 && k0 % kb == 0 && k1 == MinInt(k0 + kb, c.geom.tk) && k0 <= j < k1
    ensures OnTaken(c, kb, m)(n)(i, j) == if c.geom.QueriesFit(k0, k1) then m(n)(i, j) else 0.0
  {
    hide Geometry.QueriesFit, BlockStart;
    InBlock(j, k0, kb);
    assert KeyTaken(c, kb, j) == c.geom.QueriesFit(k0, k1);
  }

  /** Outside the queries picked for a block of keys nothing flows. */
  lemma OutsideQueriesFor(c: Call, g: Cotangent, kb: nat, k0: int, k1: int, n: int, i: int, j: int)
    requires c.Valid() && kb > 0 && k0 % kb == 0 && k1 == MinInt(k0 + kb, c.geom.tk)
    requires 0 <= k0 <= j < k1 && 0 <= i < c.geom.tq
    requires var (lo, hi) := c.geom.QueriesFor(k0, k1); !(lo <= i < hi)
    ensures TakenProbabilities(c, kb)(n)(i, j) == 0.0 && TakenDScores(c, g, kb)(n)(i, j) == 0.0
  {
    hide Sum, Delta, Project, OnTaken, Geometry.QueriesFor, Geometry.QueriesFit;
    OnTakenIs(c, kb, ProbabilitiesOf(c), k0, k1, n, i, j);
    OnTakenIs(c, kb, DScoresOf(c, g), k0, k1, n, i, j);
    if c.geom.QueriesFit(k0, k1) {
      if c.Visible(n, i, j) {
        KernelSeesLess(c.geom, i, j);
        SeenIsPicked(c.geom, k0, k1, i, j);
      }
      assert c.P(n, i, j) == 0.0;
    }
  }

  lemma SeenIsPicked(g: Geometry, k0: int, k1: int, i: int, j: int)
    requires g.Valid() && 0 <= k0 <= j < k1 <= g.tk && 0 <= i < g.tq && g.QueriesFit(k0, k1) && g.Sees(i, j)
    ensures g.QueriesFor(k0, k1).0 <= i < g.QueriesFor(k0, k1).1
  {
    hide Geometry.QueriesFor, Geometry.QueriesFit;
    QueriesForExact(g, k0, k1, i);
  }

  lemma SkippedTile(c: Call, g: Cotangent, kb: nat, b0: int, b1: int, k0: int, k1: int)
    requires c.Valid() && kb > 0 && k0 % kb == 0 && k1 == MinInt(k0 + kb, c.geom.tk)
    requires 0 <= k0 < k1 && 0 <= b0 < b1 <= c.geom.tq
    requires var (lo, hi) := c.geom.QueriesFor(k0, k1); MaxInt(b0, lo) >= MinInt(b1, hi)
    ensures TileOf(c, TakenProbabilities(c, kb), b0, b1, b0, b0, k0, k1, [])
    ensures TileOf(c, TakenDScores(c, g, kb), b0, b1, b0, b0, k0, k1, [])
  {
    hide TakenProbabilities, TakenDScores, Geometry.QueriesFor;
    forall n, i, j | 0 <= n < c.Heads() && b0 <= i < b1 && k0 <= j < k1
      ensures TakenProbabilities(c, kb)(n)(i, j) == 0.0 && TakenDScores(c, g, kb)(n)(i, j) == 0.0
    {
      OutsideQueriesFor(c, g, kb, k0, k1, n, i, j);
    }
  }

  /** A block of keys some query is picked for fits. */
  lemma PickedFits(c: Call, k0: int, k1: int, i: int)
    requires c.Valid() && 0 <= k0 < k1 <= c.geom.tk && 0 <= i < c.geom.tq
    requires var (lo, hi) := c.geom.QueriesFor(k0, k1); lo <= i < hi
    ensures c.geom.QueriesFit(k0, k1)
  {
    hide Geometry.QueriesFor, Geometry.QueriesFit;
    QueriesForExact(c.geom, k0, k1, i);
  }

  lemma TakenTile(c: Call, g: Cotangent, kb: nat, b0: int, b1: int, q0: int, q1: int, k0: int, k1: int,
                  p: seq<seq<real>>, ds: seq<seq<real>>)
    requires c.Valid() && kb > 0 && k0 % kb == 0 && k1 == MinInt(k0 + kb, c.geom.tk)
    requires 0 <= k0 < k1 && 0 <= b0 < b1 <= c.geom.tq
    requires var (lo, hi) := c.geom.QueriesFor(k0, k1); q0 == MaxInt(b0, lo) && q1 == MinInt(b1, hi)
    requires q0 < q1 && TileHolds(c, g, q0, q1, k0, k1, p, ds)
    ensures TileOf(c, TakenProbabilities(c, kb), b0, b1, q0, q1, k0, k1, p)
    ensures TileOf(c, TakenDScores(c, g, kb), b0, b1, q0, q1, k0, k1, ds)
  {
    hide DScores, Call.P, OnTaken, Geometry.QueriesFor, Geometry.QueriesFit;
    PickedFits(c, k0, k1, q0);
    forall n, i, j | 0 <= n < c.Heads() && (b0 <= i < q0 || q1 <= i < b1) && k0 <= j < k1
      ensures TakenProbabilities(c, kb)(n)(i, j) == 0.0 && TakenDScores(c, g, kb)(n)(i, j) == 0.0
    {
      OutsideQueriesFor(c, g, kb, k0, k1, n, i, j);
    }
    forall n, i, j | 0 <= n < c.Heads() && q0 <= i < q1 && k0 <= j < k1
      ensures Entry(p, RowOf(n, i, q0, q1 - q0), j - k0) == TakenProbabilities(c, kb)(n)(i, j)
      ensures Entry(ds, RowOf(n, i, q0, q1 - q0), j - k0) == TakenDScores(c, g, kb)(n)(i, j)
    {
      assert Entry(p, RowOf(n, i, q0, q1 - q0), j - k0) == c.P(n, i, j);
      OnTakenIs(c, kb, ProbabilitiesOf(c), k0, k1, n, i, j);
      OnTakenIs(c, kb, DScoresOf(c, g), k0, k1, n, i, j);
    }
  }

  // ----- the pass -----

  /** How the scores are normalised: by the log-sum-exp, or by the forward pass's maximum and sum. */
  datatype Normaliser = Lse(lse: Mat) | MaxSum(m: Mat, s: Mat) {
    function Shift(): Mat { if Lse? then lse else m }

    function Sums(): Mat { if Lse? then (n, i) => 1.0 else s }

    /** It is the call's own, on the rows that see a key. */
    ghost predicate Of(c: Call)
      requires c.Valid()
    {
      forall n, i :: 0 <= n < c.Heads() && 0 <= i < c.geom.tq ==> Normalises(c, n, i, Shift()(n, i), Sums()(n, i))
    }
  }

  /** What the forward pass leaves, and the log-sum-exp it comes to, both normalise. */
  lemma ForwardNormalises(c: Call, out: Tensor, ms: Mat, ss: Mat, lse: Mat)
    requires c.Valid()
    requires forall n, i :: 0 <= n < c.Heads() && 0 <= i < c.geom.tq ==> RowDone(c, n, i, out, ms, ss)
    requires forall n, i :: 0 <= n < c.Heads() && 0 <= i < c.geom.tq && ss(n, i) > 0.0 ==>
               Fin(lse(n, i)) == LseFrom(c.e, ms(n, i), ss(n, i))
    ensures MaxSum(ms, ss).Of(c) && Lse(lse).Of(c)
  {
    hide Sum, Call.Z;
    forall n, i | 0 <= n < c.Heads() && 0 <= i < c.geom.tq
      ensures Normalises(c, n, i, ms(n, i), ss(n, i)) && Normalises(c, n, i, lse(n, i), 1.0)
    {
      assert RowDone(c, n, i, out, ms, ss);
      ZPositive(c, n, i);
      SignOfScaled(ss(n, i), c.e.exp(ms(n, i)), c.Z(n, i));
    }
  }

  function Cotangents(dOut: Tensor, dLse: Option<Mat>): Cotangent {
    Cotangent(dOut, if dLse.Some? then dLse.value else (n, i) => 0.0)
  }

  /** delta from the output the forward pass returned. */
  function DeltaFrom(c: Call, g: Cotangent, out: Tensor): Mat {
    (n, i) => Dot(c.d, RowTensor(g.out, n, i), RowTensor(out, n, i)) - g.lse(n, i)
  }

  lemma DeltaFromOut(c: Call, g: Cotangent, out: Tensor, n: int, i: int)
    requires c.Valid() && forall x :: 0 <= x < c.d ==> out(n, i, x) == c.Out(n, i, x)
    ensures DeltaFrom(c, g, out)(n, i) == Delta(c, g, n, i)
  {
    hide Sum, Dot, Call.Out;
    DotEqual(c.d, RowTensor(g.out, n, i), RowTensor(out, n, i), RowTensor(g.out, n, i), OutRow(c, n, i));
  }

  /** Every block of queries holds its gradient over the first `upto` keys. */
  ghost predicate BlocksHold(c: Call, m: int -> Mat, blocks: seq<(int, int)>, lo: int, hi: int, upto: int,
                             dqs: seq<Option<Tensor>>)
    requires c.Valid()
  {
    && |dqs| == |blocks|
    && forall b :: 0 <= lo <= b < hi <= |blocks| ==> QueriesHold(c, m, blocks[b].0, blocks[b].1, upto, dqs[b])
  }

  /** One block of keys against every block of queries that sees it. */
  method BackwardKeys(c: Call, g: Cotangent, kb: nat, k0: nat, k1: nat, blocks: seq<(int, int)>, qb: nat,
                      norm: Normaliser, delta: Mat, dqs: seq<Option<Tensor>>)
    returns (newDqs: seq<Option<Tensor>>, dk: Option<Tensor>, dv: Option<Tensor>)
    requires c.Valid() && kb > 0 && k0 % kb == 0 && k0 < k1 == MinInt(k0 + kb, c.geom.tk)
    requires Partition(blocks, 0, c.geom.tq, qb)
    requires norm.Of(c)
    requires forall n, i :: 0 <= n < c.Heads() && 0 <= i < c.geom.tq ==> delta(n, i) == Delta(c, g, n, i)
    requires BlocksHold(c, TakenDScores(c, g, kb), blocks, 0, |blocks|, k0, dqs)
    ensures BlocksHold(c, TakenDScores(c, g, kb), blocks, 0, |blocks|, k1, newDqs)
    ensures KeysHold(c, TakenProbabilities(c, kb), g.out, c.geom.tq, k0, k1, dv)
    ensures KeysHold(c, TakenDScores(c, g, kb), c.q, c.geom.tq, k0, k1, dk)
  {
    hide Sum, KeysHold, QueriesHold, Delta, Normalises, TileHolds, TileOf, Geometry.QueriesFor, AddTo, GroupSum,
         TileHead, TileQ,
         OnTaken;
    newDqs, dk, dv := dqs, None, None;
    var (lo, hi) := c.geom.QueriesFor(k0, k1);
    KeysStart(c, TakenProbabilities(c, kb), g.out, k0, k1);
    KeysStart(c, TakenDScores(c, g, kb), c.q, k0, k1);
    for block := 0 to |blocks|
      invariant BlocksHold(c, TakenDScores(c, g, kb), blocks, 0, block, k1, newDqs)
      invariant BlocksHold(c, TakenDScores(c, g, kb), blocks, block, |blocks|, k0, newDqs)
      invariant KeysHold(c, TakenProbabilities(c, kb), g.out, if block == 0 then 0 else blocks[block - 1].1, k0, k1, dv)
      invariant KeysHold(c, TakenDScores(c, g, kb), c.q, if block == 0 then 0 else blocks[block - 1].1, k0, k1, dk)
    {
      var (b0, b1) := blocks[block];
      assert b0 == if block == 0 then 0 else blocks[block - 1].1;
      var q0, q1 := MaxInt(b0, lo), MinInt(b1, hi);
      if q0 < q1 {
        var p, ds := TileGrads(c, g, q0, q1, k0, k1, norm.Shift(), norm.Sums(), delta);
        TakenTile(c, g, kb, b0, b1, q0, q1, k0, k1, p, ds);
        KeysAdvance(c, TakenProbabilities(c, kb), g.out, b0, b1, q0, q1, k0, k1, p, dv);
        KeysAdvance(c, TakenDScores(c, g, kb), c.q, b0, b1, q0, q1, k0, k1, ds, dk);
        QueriesAdvance(c, TakenDScores(c, g, kb), b0, b1, q0, q1, k0, k1, ds, newDqs[block]);
        dv := Some(AddTo(dv, GroupSum(c, TileHead(g.out, q0, q1, k0, p))));
        dk := Some(AddTo(dk, GroupSum(c, TileHead(c.q, q0, q1, k0, ds))));
        newDqs := newDqs[block := Some(AddTo(newDqs[block], TileQ(c, q0, q1, k0, k1, ds)))];
      } else {
        SkippedTile(c, g, kb, b0, b1, k0, k1);
        KeysSkip(c, TakenProbabilities(c, kb), g.out, b0, b1, k0, k1, dv);
        KeysSkip(c, TakenDScores(c, g, kb), c.q, b0, b1, k0, k1, dk);
        QueriesSkip(c, TakenDScores(c, g, kb), b0, b1, k0, k1, newDqs[block]);
      }
    }
  }

  /** `concatenate` along the time: the places lo..hi from a block. */
  function Join(before: Tensor, lo: int, hi: int, block: Tensor): Tensor {
    (n, i, x) => if lo <= i < hi then block(n, i, x) else before(n, i, x)
  }

  function ScaleTensor(a: real, t: Tensor): Tensor { (n, i, x) => t(n, i, x) * a }

  lemma HeadParts(c: Call, g: Cotangent, n: int, j: int, x: int)
    requires c.Valid()
    ensures HeadPart(ProbabilitiesOf(c), g.out, c.geom.tq)(n, j, x) == HeadGradV(c, g)(n, j, x)
    ensures HeadGradK(c, g)(n, j, x) == c.scale * HeadPart(DScoresOf(c, g), c.q, c.geom.tq)(n, j, x)
  {
    hide Combine, DScores, Probabilities;
  }

  lemma GroupScales(c: Call, a: Tensor, f: real, b: Tensor, y: int, j: int, x: int)
    requires forall n :: b(n, j, x) == f * a(n, j, x)
    ensures GroupSum(c, b)(y, j, x) == f * GroupSum(c, a)(y, j, x)
  {
    hide Sum;
    SumScale(y * c.group, (y + 1) * c.group, f, (n: int) => a(n, j, x), (n: int) => b(n, j, x));
  }

  /** M^T A of every query, the heads of a group added. */
  function KeySum(c: Call, m: int -> Mat, a: Tensor): Tensor { GroupSum(c, HeadPart(m, a, c.geom.tq)) }

  /** What a pass in blocks of kb keys gives: the sums over the keys it takes. */
  ghost predicate TakenGradients(c: Call, g: Cotangent, kb: nat, dq: Tensor, dk: Tensor, dv: Tensor)
    requires c.Valid() && kb > 0
  {
    && (forall n, i, x :: 0 <= n < c.Heads() && 0 <= i < c.geom.tq && 0 <= x < c.d ==>
          dq(n, i, x) == PartialQ(c, TakenDScores(c, g, kb), c.geom.tk)(n, i, x))
    && (forall y, j, x :: 0 <= y < c.slices && 0 <= j < c.geom.tk && 0 <= x < c.d ==>
          dk(y, j, x) == KeySum(c, TakenDScores(c, g, kb), c.q)(y, j, x) * c.scale)
    && (forall y, j, x :: 0 <= y < c.slices && 0 <= j < c.geom.tk && 0 <= x < c.d ==>
          dv(y, j, x) == KeySum(c, TakenProbabilities(c, kb), g.out)(y, j, x))
  }

  /** The gradients of the adjoint identity. */
  ghost predicate Gradients(c: Call, g: Cotangent, dq: Tensor, dk: Tensor, dv: Tensor)
    requires c.Valid()
  {
    && (forall n, i, x :: 0 <= n < c.Heads() && 0 <= i < c.geom.tq && 0 <= x < c.d ==>
          dq(n, i, x) == GradQ(c, g)(n, i, x))
    && (forall y, j, x :: 0 <= y < c.slices && 0 <= j < c.geom.tk && 0 <= x < c.d ==>
          dk(y, j, x) == GradK(c, g)(y, j, x) && dv(y, j, x) == GradV(c, g)(y, j, x))
  }

  /** Where every key is taken the sums are the gradients. */
  lemma TakenIsAll(c: Call, g: Cotangent, kb: nat, dq: Tensor, dk: Tensor, dv: Tensor)
    requires c.Valid() && kb > 0 && c.geom.QueriesAllFit() && TakenGradients(c, g, kb, dq, dk, dv)
    ensures Gradients(c, g, dq, dk, dv)
  {
    hide Sum, GradQ, GradK, GradV, PartialQ, KeySum, OnTaken;
    forall j | 0 <= j < c.geom.tk
      ensures KeyTaken(c, kb, j)
    {
      BlockHolds(j, kb);
    }
    forall n, i, x | 0 <= n < c.Heads() && 0 <= i < c.geom.tq && 0 <= x < c.d
      ensures dq(n, i, x) == GradQ(c, g)(n, i, x)
    {
      TakenQ(c, g, kb, n, i, x);
    }
    forall y, j, x | 0 <= y < c.slices && 0 <= j < c.geom.tk && 0 <= x < c.d
      ensures dk(y, j, x) == GradK(c, g)(y, j, x) && dv(y, j, x) == GradV(c, g)(y, j, x)
    {
      TakenK(c, g, kb, y, j, x);
    }
  }

  lemma TakenQ(c: Call, g: Cotangent, kb: nat, n: int, i: int, x: int)
    requires c.Valid() && kb > 0 && forall j :: 0 <= j < c.geom.tk ==> KeyTaken(c, kb, j)
    ensures PartialQ(c, TakenDScores(c, g, kb), c.geom.tk)(n, i, x) == GradQ(c, g)(n, i, x)
  {
    hide Sum, DScores, KeyTaken, Combine;
    CombineAt(c.geom.tk, Row(TakenDScores(c, g, kb)(n), i), ValuesOf(c, c.k, n), x);
    CombineAt(c.geom.tk, Row(DScores(c, g, n), i), ValuesOf(c, c.k, n), x);
    SumEqual(0, c.geom.tk, Times(Row(TakenDScores(c, g, kb)(n), i), Col(ValuesOf(c, c.k, n), x)),
             Times(Row(DScores(c, g, n), i), Col(ValuesOf(c, c.k, n), x)));
  }

  lemma TakenK(c: Call, g: Cotangent, kb: nat, y: int, j: int, x: int)
    requires c.Valid() && kb > 0 && KeyTaken(c, kb, j)
    ensures KeySum(c, TakenDScores(c, g, kb), c.q)(y, j, x) * c.scale == GradK(c, g)(y, j, x)
    ensures KeySum(c, TakenProbabilities(c, kb), g.out)(y, j, x) == GradV(c, g)(y, j, x)
  {
    hide Sum, Combine, DScores, Probabilities, HeadPart, HeadGradK, HeadGradV, GroupSum, OnTaken, KeyTaken;
    var kPart, vPart :=
      HeadPart(TakenDScores(c, g, kb), c.q, c.geom.tq), HeadPart(TakenProbabilities(c, kb), g.out, c.geom.tq);
    forall n: int
      ensures HeadGradV(c, g)(n, j, x) == 1.0 * vPart(n, j, x) && HeadGradK(c, g)(n, j, x) == c.scale * kPart(n, j, x)
    {
      TakenHead(c, kb, ProbabilitiesOf(c), g.out, n, j, x);
      TakenHead(c, kb, DScoresOf(c, g), c.q, n, j, x);
      HeadParts(c, g, n, j, x);
    }
    GroupScales(c, vPart, 1.0, HeadGradV(c, g), y, j, x);
    GroupScales(c, kPart, c.scale, HeadGradK(c, g), y, j, x);
  }

  lemma TakenHead(c: Call, kb: nat, m: int -> Mat, a: Tensor, n: int, j: int, x: int)
    requires kb > 0 && KeyTaken(c, kb, j)
    ensures HeadPart(OnTaken(c, kb, m), a, c.geom.tq)(n, j, x) == HeadPart(m, a, c.geom.tq)(n, j, x)
  {
    hide Sum, KeyTaken, Combine;
    CombineAt(c.geom.tq, Col(OnTaken(c, kb, m)(n), j), Slice(a, n), x);
    CombineAt(c.geom.tq, Col(m(n), j), Slice(a, n), x);
    SumEqual(0, c.geom.tq, Times(Col(OnTaken(c, kb, m)(n), j), Col(Slice(a, n), x)),
             Times(Col(m(n), j), Col(Slice(a, n), x)));
  }

  /** A key that is not taken gets no gradient, whoever sees it. */
  lemma UntakenKey(c: Call, g: Cotangent, kb: nat, dq: Tensor, dk: Tensor, dv: Tensor, y: int, j: int, x: int)
    requires c.Valid() && kb > 0 && TakenGradients(c, g, kb, dq, dk, dv) && !KeyTaken(c, kb, j)
    requires 0 <= y < c.slices && 0 <= j < c.geom.tk && 0 <= x < c.d
    ensures dk(y, j, x) == 0.0 && dv(y, j, x) == 0.0
  {
    hide Sum, Combine, DScores, Probabilities, KeyTaken, GroupSum;
    forall n: int
      ensures HeadPart(TakenDScores(c, g, kb), c.q, c.geom.tq)(n, j, x) == 0.0
      ensures HeadPart(TakenProbabilities(c, kb), g.out, c.geom.tq)(n, j, x) == 0.0
    {
      UntakenHead(c, kb, DScoresOf(c, g), c.q, n, j, x);
      UntakenHead(c, kb, ProbabilitiesOf(c), g.out, n, j, x);
    }
    GroupOfZeros(c, HeadPart(TakenDScores(c, g, kb), c.q, c.geom.tq), y, j, x);
    GroupOfZeros(c, HeadPart(TakenProbabilities(c, kb), g.out, c.geom.tq), y, j, x);
  }

  lemma UntakenHead(c: Call, kb: nat, m: int -> Mat, a: Tensor, n: int, j: int, x: int)
    requires kb > 0 && !KeyTaken(c, kb, j)
    ensures HeadPart(OnTaken(c, kb, m), a, c.geom.tq)(n, j, x) == 0.0
  {
    hide Sum, KeyTaken, Combine;
    CombineAt(c.geom.tq, Col(OnTaken(c, kb, m)(n), j), Slice(a, n), x);
    SumZero(0, c.geom.tq, Times(Col(OnTaken(c, kb, m)(n), j), Col(Slice(a, n), x)));
  }

  lemma FinishedKeys(c: Call, m: int -> Mat, a: Tensor, k0: int, k1: int, acc: Option<Tensor>, y: int, j: int, x: int)
    requires c.Valid() && 0 <= y < c.slices && k0 <= j < k1 && 0 <= x < c.d
    requires KeysHold(c, m, a, c.geom.tq, k0, k1, acc)
    ensures OrZero(acc)(y, j, x) == KeySum(c, m, a)(y, j, x)
  {
    hide GroupSum, HeadPart;
  }

  /** The blocks of queries joined: dQ, from the gradient of every block over all keys. */
  method JoinQueries(c: Call, ghost m: int -> Mat, blocks: seq<(int, int)>, qb: nat, dqs: seq<Option<Tensor>>)
    returns (dq: Tensor)
    requires c.Valid() && Partition(blocks, 0, c.geom.tq, qb)
    requires BlocksHold(c, m, blocks, 0, |blocks|, c.geom.tk, dqs)
    ensures forall n, i, x :: 0 <= n < c.Heads() && 0 <= i < c.geom.tq && 0 <= x < c.d ==>
              dq(n, i, x) == PartialQ(c, m, c.geom.tk)(n, i, x)
  {
    hide Sum, PartialQ;
    dq := ZeroTensor();
    for b := 0 to |blocks|
      invariant forall n, i, x ::
        0 <= n < c.Heads() && 0 <= i < (if b == 0 then 0 else blocks[b - 1].1) && 0 <= x < c.d ==>
                  dq(n, i, x) == PartialQ(c, m, c.geom.tk)(n, i, x)
    {
      assert blocks[b].0 == if b == 0 then 0 else blocks[b - 1].1;
      assert QueriesHold(c, m, blocks[b].0, blocks[b].1, c.geom.tk, dqs[b]);
      dq := Join(dq, blocks[b].0, blocks[b].1, OrZero(dqs[b]));
    }
  }

  /** The gradients of one call, blocked: whatever the block sizes, the sums over the keys that are taken;
      where those are all of them, the gradients whose adjoint identity is proved. */
  method BlockedBackward(c: Call, out: Tensor, norm: Normaliser, dOut: Tensor, dLse: Option<Mat>, qb: nat, kb: nat)
    returns (dq: Tensor, dk: Tensor, dv: Tensor)
    requires c.Valid() && qb > 0 && kb > 0 && norm.Of(c)
    requires forall n, i, x :: 0 <= n < c.Heads() && 0 <= i < c.geom.tq && 0 <= x < c.d ==>
               out(n, i, x) == c.Out(n, i, x)
    ensures TakenGradients(c, Cotangents(dOut, dLse), kb, dq, dk, dv)
    ensures c.geom.QueriesAllFit() ==> Gradients(c, Cotangents(dOut, dLse), dq, dk, dv)
  {
    hide Sum, KeysHold, QueriesHold, Delta, Normalises, Gradients, Normaliser.Of, DeltaFrom, Call.Out, Partition,
         KeySum, PartialQ, TakenProbabilities, TakenDScores, Geometry.QueriesAllFit;
    var g := Cotangents(dOut, dLse);
    ghost var p, ds := TakenProbabilities(c, kb), TakenDScores(c, g, kb);
    var delta := DeltaFrom(c, g, out);
    forall n, i | 0 <= n < c.Heads() && 0 <= i < c.geom.tq
      ensures delta(n, i) == Delta(c, g, n, i)
    {
      DeltaFromOut(c, g, out, n, i);
    }
    var blocks := StepBy(0, c.geom.tq, qb);
    var dqs: seq<Option<Tensor>> := seq(|blocks|, _ => None);
    forall b | 0 <= b < |blocks|
      ensures QueriesHold(c, ds, blocks[b].0, blocks[b].1, 0, dqs[b])
    {
      QueriesStart(c, ds, blocks[b].0, blocks[b].1);
    }
    dk, dv := ZeroTensor(), ZeroTensor();
    var k0 := 0;
    while k0 < c.geom.tk
      invariant 0 <= k0 && k0 % kb == 0
      invariant BlocksHold(c, ds, blocks, 0, |blocks|, MinInt(k0, c.geom.tk), dqs)
      invariant forall y, j, x :: 0 <= y < c.slices && 0 <= j < MinInt(k0, c.geom.tk) && 0 <= x < c.d ==>
                  dk(y, j, x) == KeySum(c, ds, c.q)(y, j, x) * c.scale && dv(y, j, x) == KeySum(c, p, g.out)(y, j, x)
    {
      var k1 := MinInt(k0 + kb, c.geom.tk);
      var newDqs, dkBlock, dvBlock := BackwardKeys(c, g, kb, k0, k1, blocks, qb, norm, delta, dqs);
      forall y, j, x | 0 <= y < c.slices && k0 <= j < k1 && 0 <= x < c.d
        ensures OrZero(dvBlock)(y, j, x) == KeySum(c, p, g.out)(y, j, x)
        ensures ScaleTensor(c.scale, OrZero(dkBlock))(y, j, x) == KeySum(c, ds, c.q)(y, j, x) * c.scale
      {
        FinishedKeys(c, p, g.out, k0, k1, dvBlock, y, j, x);
        FinishedKeys(c, ds, c.q, k0, k1, dkBlock, y, j, x);
      }
      dqs := newDqs;
      dk, dv := Join(dk, k0, k1, ScaleTensor(c.scale, OrZero(dkBlock))), Join(dv, k0, k1, OrZero(dvBlock));
      NextBlock(k0, kb);
      k0 := k0 + kb;
    }
    dq := JoinQueries(c, ds, blocks, qb, dqs);
    if c.geom.QueriesAllFit() {
      TakenIsAll(c, g, kb, dq, dk, dv);
    }
  }

  /** One unpacked call, forward and then backward from the maximum and the sum the forward pass
      returned: the contract's attention, and its gradients. */
  method Unpacked(c: Call, dOut: Tensor, dLse: Option<Mat>, qb: nat, kb: nat)
    returns (out: Tensor, ms: Mat, ss: Mat, dq: Tensor, dk: Tensor, dv: Tensor)
    requires c.Valid() && qb > 0 && kb > 0 && c.geom.KeysAllFit()
    ensures forall n, i :: 0 <= n < c.Heads() && 0 <= i < c.geom.tq ==> RowDone(c, n, i, out, ms, ss)
    ensures TakenGradients(c, Cotangents(dOut, dLse), kb, dq, dk, dv)
    ensures c.geom.PicksFit() ==> Gradients(c, Cotangents(dOut, dLse), dq, dk, dv)
  {
    hide RowDone, RowTaken, TakenGradients, Gradients, Normaliser.Of, Call.Out, Geometry.KeysAllFit;
    out, ms, ss := BlockedForward(c, qb, kb);
    ForwardNormalises(c, out, ms, ss, LseEntries(c, ms, ss));
    OutputIs(c, out, ms, ss);
    dq, dk, dv := BlockedBackward(c, out, MaxSum(ms, ss), dOut, dLse, qb, kb);
  }

  /** m + ln s, on the rows that summed something. */
  function LseEntries(c: Call, ms: Mat, ss: Mat): Mat { (n, i) => ms(n, i) + c.e.ln(ss(n, i)) }

  lemma OutputIs(c: Call, out: Tensor, ms: Mat, ss: Mat)
    requires c.Valid()
    requires forall n, i :: 0 <= n < c.Heads() && 0 <= i < c.geom.tq ==> RowDone(c, n, i, out, ms, ss)
    ensures forall n, i, x :: 0 <= n < c.Heads() && 0 <= i < c.geom.tq && 0 <= x < c.d ==>
      out(n, i, x) == c.Out(n, i, x)
  {
    hide Call.Out;
    forall n, i, x | 0 <= n < c.Heads() && 0 <= i < c.geom.tq && 0 <= x < c.d
      ensures out(n, i, x) == c.Out(n, i, x)
    {
      assert RowDone(c, n, i, out, ms, ss);
    }
  }

  // ----- the tiles partition what is visible -----

  /** Query i and key j are on the tile the pass forms for a block of queries and one of keys. */
  ghost predicate InTile(c: Call, queries: (int, int), keys: (int, int), i: int, j: int) {
    var (lo, hi) := c.geom.QueriesFor(keys.0, keys.1);
    keys.0 <= j < keys.1 && MaxInt(queries.0, lo) <= i < MinInt(queries.1, hi)
  }

  /** Each visible pair of a query and a key lies in exactly one tile the pass takes, if the sums of its
      block of keys fit, and else in none. */
  lemma VisiblePairInOneTile(c: Call, qb: nat, kb: nat, n: int, i: int, j: int) returns (b: nat, k: nat)
    requires c.Valid() && qb > 0 && kb > 0 && 0 <= i < c.geom.tq && 0 <= j < c.geom.tk && c.Visible(n, i, j)
    ensures var blocks, keys := StepBy(0, c.geom.tq, qb), StepBy(0, c.geom.tk, kb);
            && b < |blocks| && k < |keys| && keys[k].0 <= j < keys[k].1
            && (InTile(c, blocks[b], keys[k], i, j) <==> c.geom.QueriesFit(keys[k].0, keys[k].1))
            && forall b', k' :: 0 <= b' < |blocks| && 0 <= k' < |keys| && InTile(c, blocks[b'], keys[k'], i, j)
                 ==> b' == b && k' == k
  {
    hide Geometry.QueriesFor, Geometry.QueriesFit, Partition;
    var blocks, keys := StepBy(0, c.geom.tq, qb), StepBy(0, c.geom.tk, kb);
    ExactlyOnePiece(blocks, 0, c.geom.tq, qb, i);
    ExactlyOnePiece(keys, 0, c.geom.tk, kb, j);
    b :| 0 <= b < |blocks| && blocks[b].0 <= i < blocks[b].1;
    k :| 0 <= k < |keys| && keys[k].0 <= j < keys[k].1;
    KernelSeesLess(c.geom, i, j);
    PieceInRange(keys, 0, c.geom.tk, kb, k);
    assert keys[k].0 <= j < keys[k].1 && c.geom.Sees(i, j);
    QueriesForExact(c.geom, keys[k].0, keys[k].1, i);
  }

  lemma PieceInRange(s: seq<(int, int)>, from: int, n: int, step: int, b: int)
    requires Partition(s, from, n, step) && 0 <= b < |s|
    ensures from <= s[b].0 < s[b].1 <= n
  {
  }
}
