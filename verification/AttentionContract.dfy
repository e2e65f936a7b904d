/** Attention as its contract defines it: scores, softmax over the visible keys, the output and
    the log-sum-exp; and the same definition over dual numbers, whose derivative part is the
    directional derivative every gradient must be adjoint to. */
module AttentionContract {
  import opened Sums
  import opened Analysis
  import opened AttentionBand

  type Tensor = (int, int, int) -> real

  /** One call. Query heads are counted over the batch, n = b Hq + h; head n reads the key-value
      slice n / group, and `heads` heads make a batch element. */
  datatype Call = Call(e: Exponential, geom: Geometry, keep: Option<(int, int) -> bool>,
                       slices: nat, group: nat, heads: nat, d: nat, scale: real, q: Tensor, k: Tensor, v: Tensor) {

    ghost predicate Valid() { e.Laws() && geom.Valid() && group > 0 && heads > 0 }

    function Heads(): nat { slices * group }

    /** The rows of a block of qn queries: every head's, head by head. */
    function Rows(qn: nat): nat { Heads() * qn }

    /** Which keys a query sees: the band, as the tile kernels are told it, and the padding. */
    predicate Visible(n: int, i: int, j: int)
      requires heads > 0
    {
      geom.KernelSees(i, j) && (keep.Some? ==> keep.value(n / heads, j))
    }

    function Products(n: int, i: int, j: int): Vec
      requires group > 0
    {
      x => q(n, i, x) * k(n / group, j, x)
    }

    function Score(n: int, i: int, j: int): real
      requires group > 0
    {
      scale * Sum(0, d, Products(n, i, j))
    }

    function Scores(n: int, i: int): Vec
      requires group > 0
    {
      j => Score(n, i, j)
    }

    function Weights(n: int, i: int): Vec
      requires group > 0 && heads > 0
    {
      j => if Visible(n, i, j) then e.exp(Score(n, i, j)) else 0.0
    }

    function Z(n: int, i: int): real
      requires group > 0 && heads > 0
    {
      Sum(0, geom.tk, Weights(n, i))
    }

    ghost predicate SeesKey(n: int, i: int)
      requires heads > 0
    {
      exists j :: 0 <= j < geom.tk && Visible(n, i, j)
    }

    /** The log-sum-exp of the visible scores. */
    ghost function Lse(n: int, i: int): Extended
      requires group > 0 && heads > 0
    {
      if SeesKey(n, i) then Fin(e.ln(Z(n, i))) else NegInf
    }

    /** p = exp(s - lse) on a visible key. */
    function P(n: int, i: int, j: int): real
      requires group > 0 && heads > 0
    {
      if Visible(n, i, j) then e.exp(Score(n, i, j) - e.ln(Z(n, i))) else 0.0
    }

    function ValueTerms(n: int, i: int, x: int): Vec
      requires group > 0 && heads > 0
    {
      j => P(n, i, j) * v(n / group, j, x)
    }

    /** The output: the visible values averaged by p; 0 where nothing is visible. */
    function Out(n: int, i: int, x: int): real
      requires group > 0 && heads > 0
    {
      Sum(0, geom.tk, ValueTerms(n, i, x))
    }

    /** The values weighed by exp(score), not yet normalised. */
    function RawTerms(n: int, i: int, x: int): Vec
      requires group > 0 && heads > 0
    {
      j => Weights(n, i)(j) * v(n / group, j, x)
    }
  }

  lemma ZPositive(c: Call, n: int, i: int)
    requires c.Valid()
    ensures c.Z(n, i) >= 0.0
    ensures c.SeesKey(n, i) <==> c.Z(n, i) > 0.0
  {
    SumNonNegative(0, c.geom.tk, c.Weights(n, i));
    if c.SeesKey(n, i) {
      var j :| 0 <= j < c.geom.tk && c.Visible(n, i, j);
      SumAtLeast(0, c.geom.tk, j, c.Weights(n, i));
    } else {
      SumZero(0, c.geom.tk, c.Weights(n, i));
    }
  }

  /** p = exp(s) / sum exp(s) on the rows that see a key. */
  lemma PIsRatio(c: Call, n: int, i: int, j: int)
    requires c.Valid() && c.Z(n, i) > 0.0
    ensures c.P(n, i, j) == c.Weights(n, i)(j) / c.Z(n, i)
  {
    if c.Visible(n, i, j) {
      ExpOfDifference(c.e, c.Score(n, i, j), c.Z(n, i));
    }
  }

  /** The probabilities of a row that sees a key sum to 1. */
  lemma PSumsToOne(c: Call, n: int, i: int, p: Vec)
    requires c.Valid() && c.SeesKey(n, i)
    requires forall j :: 0 <= j < c.geom.tk ==> p(j) == c.P(n, i, j)
    ensures Sum(0, c.geom.tk, p) == 1.0
  {
    hide Sum;
    ZPositive(c, n, i);
    var z := c.Z(n, i);
    forall j | 0 <= j < c.geom.tk
      ensures p(j) == (1.0 / z) * c.Weights(n, i)(j)
    {
      PIsRatio(c, n, i, j);
      Ratio(c.Weights(n, i)(j), z);
    }
    SumScale(0, c.geom.tk, 1.0 / z, c.Weights(n, i), p);
    Ratio(z, z);
  }

  /** The output from the sums a pass over the keys leaves. */
  lemma OutFromRaw(c: Call, n: int, i: int, x: int)
    requires c.Valid() && c.Z(n, i) > 0.0
    ensures c.Out(n, i, x) == Sum(0, c.geom.tk, c.RawTerms(n, i, x)) / c.Z(n, i)
  {
    hide Sum;
    var z := c.Z(n, i);
    forall j | 0 <= j < c.geom.tk
      ensures c.ValueTerms(n, i, x)(j) == (1.0 / z) * c.RawTerms(n, i, x)(j)
    {
      PIsRatio(c, n, i, j);
      Ratio(c.Weights(n, i)(j), z);
      ThreeFactors(1.0 / z, c.Weights(n, i)(j), c.v(n / c.group, j, x));
    }
    Ratio(Sum(0, c.geom.tk, c.RawTerms(n, i, x)), z);
    SumScale(0, c.geom.tk, 1.0 / z, c.RawTerms(n, i, x), c.ValueTerms(n, i, x));
  }

  lemma OutUnseen(c: Call, n: int, i: int, x: int)
    requires c.Valid() && !c.SeesKey(n, i)
    ensures c.Out(n, i, x) == 0.0
    ensures c.Z(n, i) == 0.0
  {
    forall j | 0 <= j < c.geom.tk
      ensures c.ValueTerms(n, i, x)(j) == 0.0
    {
      assert c.P(n, i, j) == 0.0;
    }
    SumZero(0, c.geom.tk, c.ValueTerms(n, i, x));
    SumZero(0, c.geom.tk, c.Weights(n, i));
  }

  /** Where the band fits the kernels, a key is visible exactly if the contract allows it and the
      padding keeps it. */
  lemma VisibleIsContract(c: Call, options: Options, n: int, i: int, j: int)
    requires c.heads > 0 && c.geom.Valid() && c.geom.FitsKernel()
    requires Reach(options) == (c.geom.left, c.geom.right)
    requires 0 <= i < c.geom.tq && 0 <= j < c.geom.tk
    ensures c.Visible(n, i, j)
       <==> (options.Allows(c.geom.tq, c.geom.tk, i, j) && (c.keep.Some? ==> c.keep.value(n / c.heads, j)))
  {
    ReachIsContract(options, c.geom.tq, c.geom.tk, i, j);
    KernelBandExact(c.geom);
  }

  // ----- the definition on its own -----

  function VisibleWeights(e: Exponential, vis: int -> bool, scores: Vec): Vec {
    j => if vis(j) then e.exp(scores(j)) else 0.0
  }

  function VisibleValues(e: Exponential, vis: int -> bool, scores: Vec, values: Vec): Vec {
    j => VisibleWeights(e, vis, scores)(j) * values(j)
  }

  /** The values of the keys seen, averaged by exp of their scores; 0 where none is seen. */
  function Attend(e: Exponential, tk: int, vis: int -> bool, scores: Vec, values: Vec): real {
    var z := Sum(0, tk, VisibleWeights(e, vis, scores));
    if z == 0.0 then 0.0 else Sum(0, tk, VisibleValues(e, vis, scores, values)) / z
  }

  /** The keys the options allow query i and the padding keeps. */
  ghost function Allowed(options: Options, tq: nat, tk: nat, i: int, kept: int -> bool): int -> bool {
    j => options.Allows(tq, tk, i, j) && kept(j)
  }

  function KeptKeys(c: Call, n: int): int -> bool
    requires c.heads > 0
  {
    j => c.keep.Some? ==> c.keep.value(n / c.heads, j)
  }

  /** Where the band fits the kernels the modelled output is the contract's attention over the keys the
      contract allows. */
  lemma OutIsContract(c: Call, options: Options, n: int, i: int, x: int)
    requires c.Valid() && c.geom.FitsKernel() && Reach(options) == (c.geom.left, c.geom.right) && 0 <= i < c.geom.tq
    ensures c.Out(n, i, x)
         == Attend(c.e, c.geom.tk, Allowed(options, c.geom.tq, c.geom.tk, i, KeptKeys(c, n)), c.Scores(n, i),
                   j => c.v(n / c.group, j, x))
  {
    hide Sum, Call.Score;
    var vis := Allowed(options, c.geom.tq, c.geom.tk, i, KeptKeys(c, n));
    var values: Vec := j => c.v(n / c.group, j, x);
    forall j | 0 <= j < c.geom.tk
      ensures c.Weights(n, i)(j) == VisibleWeights(c.e, vis, c.Scores(n, i))(j)
      ensures c.RawTerms(n, i, x)(j) == VisibleValues(c.e, vis, c.Scores(n, i), values)(j)
    {
      VisibleIsContract(c, options, n, i, j);
    }
    SumEqual(0, c.geom.tk, c.Weights(n, i), VisibleWeights(c.e, vis, c.Scores(n, i)));
    SumEqual(0, c.geom.tk, c.RawTerms(n, i, x), VisibleValues(c.e, vis, c.Scores(n, i), values));
    ZPositive(c, n, i);
    if c.SeesKey(n, i) {
      OutFromRaw(c, n, i, x);
    } else {
      OutUnseen(c, n, i, x);
    }
  }

  /** The log of the sum of the scores' exponentials over the keys seen, -inf where none is. */
  function AttendLse(e: Exponential, tk: int, vis: int -> bool, scores: Vec): Extended {
    e.Log(Sum(0, tk, VisibleWeights(e, vis, scores)))
  }

  /** And so is the modelled log-sum-exp. */
  lemma LseIsContract(c: Call, options: Options, n: int, i: int)
    requires c.Valid() && c.geom.FitsKernel() && Reach(options) == (c.geom.left, c.geom.right) && 0 <= i < c.geom.tq
    ensures c.Lse(n, i)
         == AttendLse(c.e, c.geom.tk, Allowed(options, c.geom.tq, c.geom.tk, i, KeptKeys(c, n)), c.Scores(n, i))
  {
    hide Sum, Call.Score;
    var vis := Allowed(options, c.geom.tq, c.geom.tk, i, KeptKeys(c, n));
    forall j | 0 <= j < c.geom.tk
      ensures c.Weights(n, i)(j) == VisibleWeights(c.e, vis, c.Scores(n, i))(j)
    {
      VisibleIsContract(c, options, n, i, j);
    }
    SumEqual(0, c.geom.tk, c.Weights(n, i), VisibleWeights(c.e, vis, c.Scores(n, i)));
    ZPositive(c, n, i);
  }

  /** What the definition reads. */
  lemma AttendEqual(e: Exponential, tk: int, vis: int -> bool, scores: Vec, values: Vec, vis': int -> bool,
                    scores': Vec, values': Vec)
    requires forall j :: 0 <= j < tk ==> vis(j) == vis'(j) && scores(j) == scores'(j) && values(j) == values'(j)
    ensures Attend(e, tk, vis, scores, values) == Attend(e, tk, vis', scores', values')
    ensures AttendLse(e, tk, vis, scores) == AttendLse(e, tk, vis', scores')
  {
    hide Sum;
    SumEqual(0, tk, VisibleWeights(e, vis, scores), VisibleWeights(e, vis', scores'));
    SumEqual(0, tk, VisibleValues(e, vis, scores, values), VisibleValues(e, vis', scores', values'));
  }
}
