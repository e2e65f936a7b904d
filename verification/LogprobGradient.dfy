/** The backward pass of the chosen log-probability: the weights exp(z - m) of every token but the
    target, summed and multiplied with the token's rows of the weight matrix chunk by chunk, and the
    one division at the end. */
module LogprobGradient {
  import opened Sums
  import opened Vectors
  import opened Analysis
  import opened Integers
  import V = Vocabulary
  import opened LogprobState
  import opened RowDerivative

  // ----- a sum by strided threads, lanes and simdgroups -----

  /** The sum of a thread's columns: tid, tid + tg, ... */
  function ThreadSum(f: Vec, cols: nat, tg: nat, tid: int): real
    requires tg > 0
  {
    Sum(0, cols, Strand(0, tg, tid, f))
  }

  /** The lanes' sums of simdgroup g. */
  function LaneSums(f: Vec, cols: nat, tg: nat, g: int): Vec
    requires tg > 0
  {
    l => ThreadSum(f, cols, tg, g * LANES + l)
  }

  method ThreadSumLoop(f: Vec, cols: nat, tg: nat, tid: nat) returns (sum: real)
    requires tid < tg
    ensures sum == ThreadSum(f, cols, tg, tid)
  {
    hide Sum, Strand;
    sum := 0.0;
    var j := tid;
    StrandStart(0, tg, tid, f, MinInt(tid, cols));
    SmallRemainder(tid, tg);
    while j < cols
      invariant tid <= j && j % tg == tid
      invariant sum == Sum(0, MinInt(j, cols), Strand(0, tg, tid, f))
    {
      StrandStep(0, tg, tid, f, j, cols);
      sum := sum + f(j);
      NextRemainder(j, tg, tid);
      j := j + tg;
    }
  }

  /** Lanes off apart: the strand of one residue is that of two at twice the distance. */
  lemma StrandHalves(f: Vec, off: nat, l: nat)
    requires 0 < off && l < off
    ensures Sum(0, LANES, Strand(0, off, l, f))
         == Sum(0, LANES, Strand(0, 2 * off, l, f)) + Sum(0, LANES, Strand(0, 2 * off, l + off, f))
  {
    hide Sum;
    forall x | 0 <= x < LANES
      ensures Strand(0, off, l, f)(x) == Strand(0, 2 * off, l, f)(x) + Strand(0, 2 * off, l + off, f)(x)
    {
      Halved(x, off, l);
    }
    SumAdd(0, LANES, Strand(0, 2 * off, l, f), Strand(0, 2 * off, l + off, f), Strand(0, off, l, f));
  }

  /** The shuffle-down tree: lane 0 ends with the sum of all, whatever lanes past the last give. */
  method LaneTree(lanes: seq<real>, beyond: (int, int) -> real, ghost f: Vec) returns (sum: real)
    requires |lanes| == LANES && forall l :: 0 <= l < LANES ==> lanes[l] == f(l)
    ensures sum == Sum(0, LANES, f)
  {
    hide Sum, Strand;
    var parts := lanes;
    var off := 16;
    forall l | 0 <= l < LANES
      ensures parts[l] == Sum(0, LANES, Strand(0, LANES, l, f))
    {
      LaneAlone(f, l);
    }
    while off > 0
      invariant off == 16 || off == 8 || off == 4 || off == 2 || off == 1 || off == 0
      invariant |parts| == LANES
      invariant forall l :: 0 <= l < (if off > 0 then 2 * off else 1) ==>
                  parts[l] == Sum(0, LANES, Strand(0, if off > 0 then 2 * off else 1, l, f))
    {
      var next := seq(LANES, l requires 0 <= l < LANES && |parts| == LANES =>
        parts[l] + (if l + off < LANES then parts[l + off] else beyond(off, l)));
      forall l | 0 <= l < off
        ensures next[l] == Sum(0, LANES, Strand(0, off, l, f))
      {
        StrandHalves(f, off, l);
      }
      parts := next;
      off := off / 2;
    }
    sum := parts[0];
    WholeStrand(f);
  }

  lemma LaneAlone(f: Vec, l: nat)
    requires l < LANES
    ensures Sum(0, LANES, Strand(0, LANES, l, f)) == f(l)
  {
    hide Sum;
    SumOnly(0, LANES, l, Strand(0, LANES, l, f));
  }

  lemma WholeStrand(f: Vec)
    ensures Sum(0, LANES, Strand(0, 1, 0, f)) == Sum(0, LANES, f)
  {
    hide Sum;
    SumEqual(0, LANES, Strand(0, 1, 0, f), f);
  }

  /** The threads' sums by simdgroup, and all of them, make the whole sum. */
  lemma GroupsAreWhole(f: Vec, cols: nat, groups: nat, sums: Vec)
    requires groups > 0
    requires forall g :: 0 <= g < groups ==> sums(g) == Sum(0, LANES, LaneSums(f, cols, groups * LANES, g))
    ensures Sum(0, groups, sums) == Sum(0, cols, f)
  {
    hide Sum, Strand;
    var tg := groups * LANES;
    var threads: Vec := tid => ThreadSum(f, cols, tg, tid);
    var bounds: int -> int := g => g * LANES;
    forall g | 0 <= g < groups
      ensures sums(g) == Sum(bounds(g), bounds(g + 1), threads)
    {
      SumShift(0, LANES, g * LANES, threads, LaneSums(f, cols, tg, g));
    }
    SumPieces(groups, bounds, threads, sums);
    Strands(0, cols, tg, f, threads);
  }

  /** One simdgroup: its threads' sums, met in lane 0. */
  method SimdgroupSum(f: Vec, cols: nat, groups: nat, g: nat, beyond: (int, int) -> real) returns (sum: real)
    requires g < groups
    ensures sum == Sum(0, LANES, LaneSums(f, cols, groups * LANES, g))
  {
    hide ThreadSum, Sum;
    var lanes: seq<real> := [];
    while |lanes| < LANES
      invariant |lanes| <= LANES
      invariant forall l :: 0 <= l < |lanes| ==> lanes[l] == LaneSums(f, cols, groups * LANES, g)(l)
    {
      var part := ThreadSumLoop(f, cols, groups * LANES, g * LANES + |lanes|);
      lanes := lanes + [part];
    }
    sum := LaneTree(lanes, beyond, LaneSums(f, cols, groups * LANES, g));
  }

  /** A threadgroup's sum of its columns' values. */
  method ThreadgroupSum(f: Vec, cols: nat, groups: nat, beyond: (int, int) -> real) returns (total: real)
    requires groups > 0
    ensures total == Sum(0, cols, f)
  {
    hide LaneSums;
    total := 0.0;
    ghost var sums: Vec := g => Sum(0, LANES, LaneSums(f, cols, groups * LANES, g));
    for g := 0 to groups
      invariant total == Sum(0, g, sums)
    {
      var sum := SimdgroupSum(f, cols, groups, g, beyond);
      total := total + sum;
    }
    GroupsAreWhole(f, cols, groups, sums);
  }

  // ----- the weights -----

  /** The weights kernel's element: exp(z - m), 0 for a masked token and for the target. */
  function ChunkWeights(e: Exponential, z: Vec, m: real, flags: int -> bool, t: int, c0: int): Vec {
    j => if flags(j) || j == t then 0.0 else e.exp(z(c0 + j) - m)
  }

  /** The same over the whole vocabulary. */
  function OtherWeights(r: TokenRow, m: real): Vec {
    j => if r.masked(j) || j == r.target then 0.0 else r.e.exp(r.z(j) - m)
  }

  /** Each token's weight by its row of the weight matrix. */
  function OtherRows(r: TokenRow, m: real, w: Mat, x: int): Vec { j => OtherWeights(r, m)(j) * w(j, x) }

  function ChunkRows(weights: Vec, w: Mat, c0: int, x: int): Vec { j => weights(j) * w(c0 + j, x) }

  lemma ChunkIsSlice(r: TokenRow, m: real, flags: int -> bool, t: int, c0: nat, c1: int, w: Mat)
    requires c0 <= c1 && ChunkInputs(r, flags, t, c0, c1)
    ensures var f := ChunkWeights(r.e, r.z, m, flags, t, c0);
            && Sum(0, c1 - c0, f) == Sum(c0, c1, OtherWeights(r, m))
            && forall x :: Sum(0, c1 - c0, ChunkRows(f, w, c0, x)) == Sum(c0, c1, OtherRows(r, m, w, x))
  {
    hide Sum;
    var f := ChunkWeights(r.e, r.z, m, flags, t, c0);
    forall j | 0 <= j < c1 - c0
      ensures f(j) == OtherWeights(r, m)(j + c0)
    {
      assert flags(j) <==> r.masked(c0 + j);
    }
    SumShift(0, c1 - c0, c0, OtherWeights(r, m), f);
    forall x
      ensures Sum(0, c1 - c0, ChunkRows(f, w, c0, x)) == Sum(c0, c1, OtherRows(r, m, w, x))
    {
      SumShift(0, c1 - c0, c0, OtherRows(r, m, w, x), ChunkRows(f, w, c0, x));
    }
  }

  function AddRows(o: Vec, weights: Vec, w: Mat, c0: int, c1: int): Vec {
    x => o(x) + Sum(0, c1 - c0, ChunkRows(weights, w, c0, x))
  }

  /** The pass's sums so far, chunk by chunk. */
  ghost predicate GradientTracks(r: TokenRow, m: real, w: Mat, upto: int, total: real, o: Vec) {
    && total == Sum(0, upto, OtherWeights(r, m))
    && forall x :: o(x) == Sum(0, upto, OtherRows(r, m, w, x))
  }

  lemma GradientAdvances(r: TokenRow, m: real, w: Mat, c0: nat, c1: int, flags: int -> bool, t: int, total: real,
                         o: Vec, part: real)
    requires c0 <= c1 && ChunkInputs(r, flags, t, c0, c1)
    requires GradientTracks(r, m, w, c0, total, o)
    requires part == Sum(0, c1 - c0, ChunkWeights(r.e, r.z, m, flags, t, c0))
    ensures GradientTracks(r, m, w, c1, total + part, AddRows(o, ChunkWeights(r.e, r.z, m, flags, t, c0), w, c0, c1))
  {
    hide Sum, ChunkWeights, OtherWeights;
    ChunkIsSlice(r, m, flags, t, c0, c1, w);
    SumSplit(0, c0, c1, OtherWeights(r, m));
    forall x
      ensures AddRows(o, ChunkWeights(r.e, r.z, m, flags, t, c0), w, c0, c1)(x) == Sum(0, c1, OtherRows(r, m, w, x))
    {
      SumSplit(0, c0, c1, OtherRows(r, m, w, x));
    }
  }

  /** The pass of the backward kernel over the vocabulary: r and o of one row. */
  method GradientSums(v: V.Vocabulary, e: Exponential, i: nat, z: Vec, w: Mat, m: real, groups: nat,
                      beyond: (int, int) -> real)
    returns (total: real, o: Vec)
    requires v.WellFormed() && i < |v.targets| && groups > 0
    ensures GradientTracks(RowOf(v, e, i, z), m, w, v.vocab, total, o)
  {
    hide GradientTracks, Sum, ChunkWeights, AddRows, ChunkInputs;
    ghost var r := RowOf(v, e, i, z);
    var chunks := v.ChunkList();
    total, o := 0.0, x => 0.0;
    GradientStarts(r, m, w, total, o);
    for k := 0 to |chunks|
      invariant GradientTracks(r, m, w, if k == 0 then 0 else chunks[k - 1].1, total, o)
    {
      var (c0, c1) := chunks[k];
      assert c0 == if k == 0 then 0 else chunks[k - 1].1;
      ChunkInputsExact(v, e, i, z, c0, c1);
      var flags: int -> bool, t := j => v.KernelMasks(c0, c1, j), v.LocalTarget(i, c0, c1);
      var weights := ChunkWeights(e, z, m, flags, t, c0);
      var part := ThreadgroupSum(weights, c1 - c0, groups, beyond);
      GradientAdvances(r, m, w, c0, c1, flags, t, total, o, part);
      total, o := total + part, AddRows(o, weights, w, c0, c1);
    }
  }

  function Quotient(total: real, wt: Vec, o: Vec, s: real): Vec
    requires s != 0.0
  {
    x => (total * wt(x) - o(x)) / s
  }

  /** `gradient` for one row: d logprob / d hidden from the forward pass's maximum and sum. */
  method Gradient(v: V.Vocabulary, e: Exponential, i: nat, z: Vec, w: Mat, m: real, s: real, groups: nat,
                  beyond: (int, int) -> real)
    returns (grad: Vec)
    requires v.WellFormed() && e.Laws() && i < |v.targets| && v.vocab > 0 && groups > 0
    requires s > 0.0 && s * e.exp(m) == Z(RowOf(v, e, i, z))
    ensures forall x :: grad(x) == LogprobGradient(RowOf(v, e, i, z), w)(x)
  {
    hide GradientTracks, Z, Sum, SomeToken, LogprobGradient;
    ghost var r := RowOf(v, e, i, z);
    RowIsValid(v, e, i, z);
    var total, o := GradientSums(v, e, i, z, w, m, groups, beyond);
    var wt := Sums.Row(w, v.targets[i]);
    grad := Quotient(if v.valid[i] then total else 0.0, wt, o, s);
    forall x
      ensures grad(x) == LogprobGradient(r, w)(x)
    {
      GradientFromSums(r, w, m, s, total, o, wt(x), x);
    }
  }

  lemma GradientStarts(r: TokenRow, m: real, w: Mat, total: real, o: Vec)
    requires total == 0.0 && forall x :: o(x) == 0.0
    ensures GradientTracks(r, m, w, 0, total, o)
  {
  }

  // ----- what it is -----

  /** w_t - sum_j p_j w_j, without the first term where the target is not valid. */
  function LogprobGradient(r: TokenRow, w: Mat): Vec {
    x => (if r.target < 0 then 0.0 else w(r.target, x)) - Combine(r.vocab, Probabilities(r), w)(x)
  }

  lemma OtherIsProbability(r: TokenRow, m: real, s: real, j: int)
    requires r.e.Laws() && s > 0.0 && s * r.e.exp(m) == Z(r) && Z(r) > 0.0 && j != r.target
    ensures OtherWeights(r, m)(j) / s == Probability(r, j)
  {
    hide Z;
    if !r.masked(j) {
      ExpShift(r.e, r.z(j), m);
      ExpOfDifference(r.e, r.z(j), Z(r));
      QuotientOfScaled(r.e.exp(r.z(j) - m), s, r.e.exp(m));
    }
  }

  /** The others' sum over s is what the target leaves of 1. */
  lemma OthersShare(r: TokenRow, m: real, s: real, total: real)
    requires r.Valid() && SomeToken(r) && s > 0.0 && s * r.e.exp(m) == Z(r)
    requires total == Sum(0, r.vocab, OtherWeights(r, m))
    ensures r.target >= 0 ==> total / s == 1.0 - Probability(r, r.target)
  {
    hide Sum, Z, OtherWeights, Probability;
    ZIsPositive(r);
    var p: Vec := j => if j == r.target then 0.0 else Probability(r, j);
    var own: Vec := j => if j == r.target then Probability(r, j) else 0.0;
    forall j | 0 <= j < r.vocab
      ensures p(j) == (1.0 / s) * OtherWeights(r, m)(j)
    {
      Ratio(OtherWeights(r, m)(j), s);
      if j == r.target {
        NoWeightOfTarget(r, m);
      } else {
        OtherIsProbability(r, m, s, j);
      }
    }
    SumScale(0, r.vocab, 1.0 / s, OtherWeights(r, m), p);
    Ratio(total, s);
    SumAdd(0, r.vocab, p, own, Probabilities(r));
    ProbabilitiesSum(r);
    if r.target >= 0 {
      SumOnly(0, r.vocab, r.target, own);
    }
  }

  lemma NoWeightOfTarget(r: TokenRow, m: real)
    ensures OtherWeights(r, m)(r.target) == 0.0
  {
  }

  /** The others' rows over s: the combination of all rows less the target's own. */
  lemma OtherRowsShare(r: TokenRow, w: Mat, m: real, s: real, o: real, x: int)
    requires r.Valid() && SomeToken(r) && s > 0.0 && s * r.e.exp(m) == Z(r)
    requires o == Sum(0, r.vocab, OtherRows(r, m, w, x))
    ensures o / s == Combine(r.vocab, Probabilities(r), w)(x)
                     - (if r.target < 0 then 0.0 else Probability(r, r.target) * w(r.target, x))
  {
    hide Sum, Z, OtherWeights, Probability, OtherRows, SomeToken;
    ZIsPositive(r);
    var rest: Vec := j => if j == r.target then 0.0 else Probability(r, j) * w(j, x);
    forall j | 0 <= j < r.vocab
      ensures rest(j) == (1.0 / s) * OtherRows(r, m, w, x)(j)
    {
      OtherRowTerm(r, w, m, s, j, x);
    }
    SumScale(0, r.vocab, 1.0 / s, OtherRows(r, m, w, x), rest);
    Ratio(o, s);
    RestAndOwn(r, w, x, rest);
  }

  lemma RestAndOwn(r: TokenRow, w: Mat, x: int, rest: Vec)
    requires r.Valid() && forall j :: rest(j) == if j == r.target then 0.0 else Probability(r, j) * w(j, x)
    ensures Combine(r.vocab, Probabilities(r), w)(x)
         == Sum(0, r.vocab, rest) + (if r.target < 0 then 0.0 else Probability(r, r.target) * w(r.target, x))
  {
    hide Sum, Probability;
    var own: Vec := j => if j == r.target then Probability(r, j) * w(j, x) else 0.0;
    SumAdd(0, r.vocab, rest, own, Times(Probabilities(r), Col(w, x)));
    CombineAt(r.vocab, Probabilities(r), w, x);
    if r.target >= 0 {
      SumOnly(0, r.vocab, r.target, own);
    } else {
      SumZero(0, r.vocab, own);
    }
  }

  lemma OtherRowTerm(r: TokenRow, w: Mat, m: real, s: real, j: int, x: int)
    requires r.e.Laws() && s > 0.0 && s * r.e.exp(m) == Z(r) && Z(r) > 0.0
    ensures (if j == r.target then 0.0 else Probability(r, j) * w(j, x)) == (1.0 / s) * OtherRows(r, m, w, x)(j)
  {
    hide Z, Probability, OtherWeights;
    Ratio(OtherWeights(r, m)(j), s);
    ThreeFactors(1.0 / s, OtherWeights(r, m)(j), w(j, x));
    if j == r.target {
      NoWeightOfTarget(r, m);
    } else {
      OtherIsProbability(r, m, s, j);
    }
  }

  /** (r w_t - o) / s, r and o without the target's term, is the gradient. */
  lemma GradientFromSums(r: TokenRow, w: Mat, m: real, s: real, total: real, o: Vec, wt: real, x: int)
    requires r.Valid() && SomeToken(r) && s > 0.0 && s * r.e.exp(m) == Z(r)
    requires GradientTracks(r, m, w, r.vocab, total, o)
    requires r.target >= 0 ==> wt == w(r.target, x)
    ensures ((if r.target >= 0 then total else 0.0) * wt - o(x)) / s == LogprobGradient(r, w)(x)
  {
    hide Sum, Z, Combine, Probability, OtherWeights;
    OthersShare(r, m, s, total);
    OtherRowsShare(r, w, m, s, o(x), x);
    if r.target >= 0 {
      GradientArithmetic(total, wt, o(x), s, Probability(r, r.target), Combine(r.vocab, Probabilities(r), w)(x));
    } else {
      Ratio(o(x), s);
      Ratio(0.0 * wt - o(x), s);
    }
  }

  lemma GradientArithmetic(total: real, wt: real, o: real, s: real, pt: real, c: real)
    requires s > 0.0 && total / s == 1.0 - pt && o / s == c - pt * wt
    ensures (total * wt - o) / s == wt - c
  {
    assert total == (1.0 - pt) * s && o == (c - pt * wt) * s;
    assert total * wt == ((1.0 - pt) * wt) * s;
    assert total * wt - o == (wt - c) * s;
  }

  // ----- the adjoint identity -----

  /** The gradient is the adjoint of the log-probability's derivative through the logits h W^T, whose
      target logit is a constant where the target is not valid. */
  lemma LogprobAdjoint(r: TokenRow, w: Mat, d: nat, ht: Vec)
    requires r.Valid() && SomeToken(r)
    ensures DualZ(r, Project(d, w, ht)).v > 0.0
    ensures DualLogprob(r, Project(d, w, ht)).t == Dot(d, ht, LogprobGradient(r, w))
  {
    hide Sum, Dot, Probability, DualZ, DualLse, Combine, Z;
    var zt := Project(d, w, ht);
    DualLseIs(r, zt);
    Adjoint(r.vocab, d, Probabilities(r), w, ht);
    var target: Vec := x => if r.target < 0 then 0.0 else w(r.target, x);
    DotLinear(d, ht, 1.0, target, -1.0, Combine(r.vocab, Probabilities(r), w), LogprobGradient(r, w));
    TargetRow(r, w, d, ht, target);
  }

  lemma TargetRow(r: TokenRow, w: Mat, d: nat, ht: Vec, target: Vec)
    requires forall x :: target(x) == if r.target < 0 then 0.0 else w(r.target, x)
    ensures Dot(d, ht, target) == TargetTangent(r, Project(d, w, ht))
  {
    if r.target < 0 {
      SumZero(0, d, Times(ht, target));
    } else {
      DotEqual(d, ht, target, ht, Row(w, r.target));
      DotSymmetric(d, ht, Row(w, r.target));
    }
  }
}
