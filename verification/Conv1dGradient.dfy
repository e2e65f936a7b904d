/** The convolution's gradients are the adjoint of its derivative, and those of a sequence run in
    pieces are the whole sequence's. */
module Conv1dGradient {
  import opened Sums
  import opened Vectors
  import opened Analysis
  import opened Conv1d
  import opened Conv1dBackward

  /** A direction in the inputs, the state, the taps and the bias. */
  datatype Direction = Direction(x: Vec, state: Vec, weight: Vec, bias: real)

  /** How the history moves along a direction. */
  function HistoryAlong(c: Conv, d: Direction): Vec {
    u => if 0 <= u < c.t then d.x(u) else if u < 0 <= c.w + u then d.state(c.w + u) else 0.0
  }

  // ----- the definition over dual numbers -----

  function DualTaps(c: Conv, d: Direction, u: int): int -> Dual {
    j => Dual(c.weight(j), d.weight(j)).Times(Dual(c.H(u - (c.k - 1) + j), HistoryAlong(c, d)(u - (c.k - 1) + j)))
  }

  function DualPre(c: Conv, d: Direction, u: int): Dual {
    SumDual(0, c.k, DualTaps(c, d, u)).Plus(Dual(c.bias, d.bias))
  }

  /** y sigmoid(y) with sigmoid(y) = 1 / (1 + exp(-y)), or y. */
  function DualAct(e: Exponential, silu: bool, y: Dual): Dual
    requires e.Laws()
  {
    if silu then y.Times(Const(1.0).Over(Const(1.0).Plus(Const(0.0).Minus(y).Exp(e)))) else y
  }

  function DualOut(c: Conv, d: Direction, u: int): Dual
    requires c.e.Laws()
  {
    DualAct(c.e, c.silu, DualPre(c, d, u))
  }

  /** The activation's derivative is the kernel's s (1 + y (1 - s)). */
  lemma DualActIs(e: Exponential, silu: bool, y: Dual)
    requires e.Laws()
    ensures DualAct(e, silu, y) == Dual(Activate(e, silu, y.v), Slope(e, silu, y.v) * y.t)
  {
    if silu {
      var q := e.exp(-y.v);
      assert 0.0 - y.v == -y.v;
      SigmoidDerivative(y.v, y.t, q);
    }
  }

  lemma SigmoidDerivative(y: real, t: real, q: real)
    requires q > 0.0
    ensures var s := 1.0 / (1.0 + q);
            && y * s == y / (1.0 + q)
            && t * s + y * ((0.0 * (1.0 + q) - 1.0 * (0.0 + q * (0.0 - t))) / ((1.0 + q) * (1.0 + q)))
                 == s * (1.0 + y * (1.0 - s)) * t
  {
    var a := 1.0 + q;
    var s := 1.0 / a;
    Ratio(y, a);
    Square(a);
    var n := 0.0 * a - 1.0 * (0.0 + q * (0.0 - t));
    assert n == q * t;
    OverSquare(n, a);
    assert q * s == 1.0 - s by { Complement(q, s); }
    assert n * (s * s) == (q * s) * (t * s);
    SigmoidArithmetic(y, t, s);
  }

  lemma Square(a: real)
    requires a > 0.0
    ensures a * a > 0.0
  {
  }

  lemma Complement(q: real, s: real)
    requires q > 0.0 && s == 1.0 / (1.0 + q)
    ensures q * s == 1.0 - s
  {
    assert s * (1.0 + q) == 1.0;
  }

  lemma OverSquare(n: real, a: real)
    requires a > 0.0
    ensures a * a > 0.0 && n / (a * a) == n * ((1.0 / a) * (1.0 / a))
  {
    Square(a);
    var s := 1.0 / a;
    assert s * a == 1.0;
    assert (s * s) * (a * a) == (s * a) * (s * a);
    OneOver(s * s, a * a);
    Ratio(n, a * a);
  }

  lemma OneOver(x: real, y: real)
    requires y > 0.0 && x * y == 1.0
    ensures 1.0 / y == x
  {
  }

  lemma SigmoidArithmetic(y: real, t: real, s: real)
    ensures t * s + y * ((1.0 - s) * (t * s)) == s * (1.0 + y * (1.0 - s)) * t
  {
  }

  /** The pre-activation's derivative. */
  function PreTangent(c: Conv, d: Direction, u: int): real { DualPre(c, d, u).t }

  function TapAlong(c: Conv, d: Direction, u: int): Vec { j => c.H(u - (c.k - 1) + j) * d.weight(j) }

  function HistoryTap(c: Conv, d: Direction, u: int): Vec { j => c.weight(j) * HistoryAlong(c, d)(u - (c.k - 1) + j) }

  lemma DualTapIs(c: Conv, d: Direction, u: int, j: int)
    ensures Values(DualTaps(c, d, u))(j) == c.Taps(u)(j)
    ensures Tangents(DualTaps(c, d, u))(j) == TapAlong(c, d, u)(j) + HistoryTap(c, d, u)(j)
  {
    hide Conv.H, HistoryAlong;
    assert DualTaps(c, d, u)(j)
        == Dual(c.weight(j), d.weight(j)).Times(Dual(c.H(u - (c.k - 1) + j), HistoryAlong(c, d)(u - (c.k - 1) + j)));
  }

  lemma DualOutIs(c: Conv, d: Direction, u: int)
    requires c.e.Laws()
    ensures DualOut(c, d, u) == Dual(c.Out(u), Slope(c.e, c.silu, c.Pre(u)) * PreTangent(c, d, u))
  {
    hide Sum, DualAct, Slope, Activate, DualTaps, Conv.Taps;
    forall j | 0 <= j < c.k
      ensures Values(DualTaps(c, d, u))(j) == c.Taps(u)(j)
    {
      DualTapIs(c, d, u, j);
    }
    SumEqual(0, c.k, Values(DualTaps(c, d, u)), c.Taps(u));
    DualActIs(c.e, c.silu, DualPre(c, d, u));
  }

  function OutTangents(c: Conv, d: Direction): Vec
    requires c.e.Laws()
  {
    u => DualOut(c, d, u).t
  }

  // ----- the adjoint identity -----

  /** Step u's share of tap j: the moving tap's and the moving history's. */
  function TapMoves(c: Conv, d: Direction, g: Vec): Mat
    requires c.e.Laws()
  {
    (u, j) => GPre(c, g)(u) * c.H(u - (c.k - 1) + j) * d.weight(j)
  }

  function HistoryMoves(c: Conv, d: Direction, g: Vec): Mat
    requires c.e.Laws()
  {
    (u, j) => GPre(c, g)(u) * c.weight(j) * HistoryAlong(c, d)(u - (c.k - 1) + j)
  }

  /** A step's gradient against its derivative, in its parts. */
  lemma StepParts(c: Conv, d: Direction, g: Vec, u: int)
    requires c.Valid() && 0 <= u < c.t
    ensures g(u) * OutTangents(c, d)(u)
         == RowSums(TapMoves(c, d, g), 0, c.k)(u) + (RowSums(HistoryMoves(c, d, g), 0, c.k)(u) + d.bias * GPre(c, g)(u))
  {
    hide Sum, Slope, TapAlong, HistoryTap, DualTaps, TapMoves, HistoryMoves;
    DualOutIs(c, d, u);
    var gp, w, h := GPre(c, g)(u), TapAlong(c, d, u), HistoryTap(c, d, u);
    forall j | 0 <= j < c.k
      ensures Tangents(DualTaps(c, d, u))(j) == w(j) + h(j)
      ensures Row(TapMoves(c, d, g), u)(j) == gp * w(j) && Row(HistoryMoves(c, d, g), u)(j) == gp * h(j)
    {
      DualTapIs(c, d, u, j);
      MovesAt(c, d, g, u, j);
    }
    SumAdd(0, c.k, w, h, Tangents(DualTaps(c, d, u)));
    SumScale(0, c.k, gp, w, Row(TapMoves(c, d, g), u));
    SumScale(0, c.k, gp, h, Row(HistoryMoves(c, d, g), u));
    ShareArithmetic(g(u), Slope(c.e, c.silu, c.Pre(u)), Sum(0, c.k, w), Sum(0, c.k, h), d.bias);
  }

  lemma MovesAt(c: Conv, d: Direction, g: Vec, u: int, j: int)
    requires c.e.Laws()
    ensures TapMoves(c, d, g)(u, j) == GPre(c, g)(u) * TapAlong(c, d, u)(j)
    ensures HistoryMoves(c, d, g)(u, j) == GPre(c, g)(u) * HistoryTap(c, d, u)(j)
  {
    hide GPre, Conv.H, HistoryAlong;
    ThreeFactors(GPre(c, g)(u), c.H(u - (c.k - 1) + j), d.weight(j));
    ThreeFactors(GPre(c, g)(u), c.weight(j), HistoryAlong(c, d)(u - (c.k - 1) + j));
  }

  lemma ShareArithmetic(g: real, slope: real, w: real, h: real, bias: real)
    ensures g * (slope * (w + h + bias)) == (g * slope) * w + ((g * slope) * h + bias * (g * slope))
  {
  }

  /** The taps' part, gathered by tap. */
  lemma TapPart(c: Conv, d: Direction, g: Vec)
    requires c.Valid()
    ensures Sum(0, c.t, RowSums(TapMoves(c, d, g), 0, c.k)) == Dot(c.k, GradWeight(c, g), d.weight)
  {
    hide Sum, GPre, Conv.H;
    SumSwap(0, c.t, 0, c.k, TapMoves(c, d, g));
    forall j | 0 <= j < c.k
      ensures ColSums(TapMoves(c, d, g), 0, c.t)(j) == Times(GradWeight(c, g), d.weight)(j)
    {
      SumScale(0, c.t, d.weight(j), WeightTerms(c, g, j), Col(TapMoves(c, d, g), j));
    }
    SumEqual(0, c.k, ColSums(TapMoves(c, d, g), 0, c.t), Times(GradWeight(c, g), d.weight));
  }

  /** History step u's share of tap j. */
  function HistoryShare(c: Conv, d: Direction, g: Vec): Mat
    requires c.e.Laws()
  {
    (u, j) => HistoryTerms(c, g, u)(j) * HistoryAlong(c, d)(u)
  }

  /** One tap: the steps it moves and the history it reads are the same pairs. */
  lemma TapShift(c: Conv, d: Direction, g: Vec, j: int)
    requires c.Valid() && 0 <= j < c.k
    ensures Sum(0, c.t, Col(HistoryMoves(c, d, g), j)) == Sum(-(c.k - 1), c.t, Col(HistoryShare(c, d, g), j))
  {
    hide Sum, GPre, HistoryAlong, HistoryShare, HistoryMoves;
    var f := Col(HistoryShare(c, d, g), j);
    var by0 := j - (c.k - 1);
    forall u | 0 <= u < c.t
      ensures Col(HistoryMoves(c, d, g), j)(u) == f(u + by0)
    {
      ShareAt(c, d, g, u, j);
    }
    SumShift(0, c.t, by0, f, Col(HistoryMoves(c, d, g), j));
    SumSplit(-(c.k - 1), by0, c.t, f);
    SumSplit(by0, c.t + by0, c.t, f);
    forall u | -(c.k - 1) <= u < by0 || c.t + by0 <= u < c.t
      ensures f(u) == 0.0
    {
      ShareAt(c, d, g, u - by0, j);
      NoGradient(c, g, u - by0);
    }
    SumZero(-(c.k - 1), by0, f);
    SumZero(c.t + by0, c.t, f);
  }

  /** Step u moves history step u - (k - 1) + j through tap j. */
  lemma ShareAt(c: Conv, d: Direction, g: Vec, u: int, j: int)
    requires c.Valid()
    ensures HistoryMoves(c, d, g)(u, j) == HistoryShare(c, d, g)(u + (j - (c.k - 1)), j)
    ensures HistoryShare(c, d, g)(u + (j - (c.k - 1)), j)
         == c.weight(j) * GPre(c, g)(u) * HistoryAlong(c, d)(u + (j - (c.k - 1)))
  {
    hide GPre, HistoryAlong;
    var v := u + (j - (c.k - 1));
    assert v + c.k - 1 - j == u && u - (c.k - 1) + j == v;
    assert HistoryTerms(c, g, v)(j) == c.weight(j) * GPre(c, g)(u);
    assert HistoryMoves(c, d, g)(u, j) == GPre(c, g)(u) * (c.weight(j) * HistoryAlong(c, d)(v));
    ThreeFactors(GPre(c, g)(u), c.weight(j), HistoryAlong(c, d)(v));
    SwapFactors(GPre(c, g)(u), c.weight(j), HistoryAlong(c, d)(v));
  }

  lemma SwapFactors(a: real, b: real, f: real)
    ensures a * b * f == b * a * f
  {
  }

  /** The history's part, gathered by step of the history. */
  lemma HistoryPart(c: Conv, d: Direction, g: Vec)
    requires c.Valid()
    ensures Sum(0, c.t, RowSums(HistoryMoves(c, d, g), 0, c.k))
         == Sum(-(c.k - 1), c.t, Times(GradHistory(c, g), HistoryAlong(c, d)))
  {
    hide Sum, GPre, HistoryAlong, HistoryTerms, HistoryMoves;
    SumSwap(0, c.t, 0, c.k, HistoryMoves(c, d, g));
    forall j | 0 <= j < c.k
      ensures ColSums(HistoryMoves(c, d, g), 0, c.t)(j) == ColSums(HistoryShare(c, d, g), -(c.k - 1), c.t)(j)
    {
      TapShift(c, d, g, j);
    }
    SumEqual(0, c.k, ColSums(HistoryMoves(c, d, g), 0, c.t), ColSums(HistoryShare(c, d, g), -(c.k - 1), c.t));
    SumSwap(-(c.k - 1), c.t, 0, c.k, HistoryShare(c, d, g));
    forall u | -(c.k - 1) <= u < c.t
      ensures RowSums(HistoryShare(c, d, g), 0, c.k)(u) == Times(GradHistory(c, g), HistoryAlong(c, d))(u)
    {
      SumScale(0, c.k, HistoryAlong(c, d)(u), HistoryTerms(c, g, u), Row(HistoryShare(c, d, g), u));
    }
    SumEqual(-(c.k - 1), c.t, RowSums(HistoryShare(c, d, g), 0, c.k), Times(GradHistory(c, g), HistoryAlong(c, d)));
  }

  /** The history's part is the inputs' and the state's, the steps older than k - 1 getting nothing. */
  lemma HistorySplit(c: Conv, d: Direction, g: Vec, dx: Vec, dstate: Vec)
    requires c.Valid()
    requires forall u :: 0 <= u < c.t ==> dx(u) == GradHistory(c, g)(u)
    requires forall s :: 0 <= s < c.w ==> dstate(s) == GradHistory(c, g)(s - c.w)
    ensures Sum(-(c.k - 1), c.t, Times(GradHistory(c, g), HistoryAlong(c, d)))
         == Dot(c.t, dx, d.x) + Dot(c.w, dstate, d.state)
  {
    hide Sum, GradHistory;
    var f := Times(GradHistory(c, g), HistoryAlong(c, d));
    SumSplit(-(c.k - 1), 0, c.t, f);
    forall u | 0 <= u < c.t
      ensures f(u) == Times(dx, d.x)(u)
    {
    }
    SumEqual(0, c.t, f, Times(dx, d.x));
    SumSplit(0 - c.w, -(c.k - 1), 0, f);
    forall u | 0 - c.w <= u < -(c.k - 1)
      ensures f(u) == 0.0
    {
      OldStep(c, g, u);
    }
    SumZero(0 - c.w, -(c.k - 1), f);
    forall s | 0 <= s < c.w
      ensures Times(dstate, d.state)(s) == f(s + (0 - c.w))
    {
      assert HistoryAlong(c, d)(s - c.w) == d.state(s);
    }
    SumShift(0, c.w, 0 - c.w, f, Times(dstate, d.state));
  }

  /** The gradients are the adjoint of the convolution: for every direction, the output's gradient
      against the output's derivative is the inputs', the state's, the taps' and the bias's gradients
      against the direction. */
  lemma ConvolutionAdjoint(c: Conv, d: Direction, g: Vec, dx: Vec, dstate: Vec)
    requires c.Valid()
    requires forall u :: 0 <= u < c.t ==> dx(u) == GradHistory(c, g)(u)
    requires forall s :: 0 <= s < c.w ==> dstate(s) == GradHistory(c, g)(s - c.w)
    ensures Dot(c.t, g, OutTangents(c, d))
         == Dot(c.t, dx, d.x) + Dot(c.w, dstate, d.state) + Dot(c.k, GradWeight(c, g), d.weight)
            + d.bias * GradBias(c, g)
  {
    hide Sum, GPre, GradHistory, OutTangents, TapMoves, HistoryMoves;
    var bias: Vec := u => d.bias * GPre(c, g)(u);
    var rest: Vec := u => RowSums(HistoryMoves(c, d, g), 0, c.k)(u) + bias(u);
    forall u | 0 <= u < c.t
      ensures Times(g, OutTangents(c, d))(u) == RowSums(TapMoves(c, d, g), 0, c.k)(u) + rest(u)
    {
      StepParts(c, d, g, u);
    }
    SumAdd(0, c.t, RowSums(TapMoves(c, d, g), 0, c.k), rest, Times(g, OutTangents(c, d)));
    SumAdd(0, c.t, RowSums(HistoryMoves(c, d, g), 0, c.k), bias, rest);
    SumScale(0, c.t, d.bias, GPre(c, g), bias);
    TapPart(c, d, g);
    HistoryPart(c, d, g);
    HistorySplit(c, d, g, dx, dstate);
  }

  // ----- a sequence in pieces -----

  /** The history's gradient with one for the final state of `len` steps besides. */
  function GradWithFinal(c: Conv, g: Vec, final: Vec, len: nat): Vec
    requires c.e.Laws()
  {
    u => GradHistory(c, g)(u) + FinalShare(c, final, len)(u)
  }

  /** The final state of `len` steps along a direction: the history's last ones. */
  function FinalAlong(c: Conv, d: Direction, len: nat): Vec { i => HistoryAlong(c, d)(c.t - len + i) }

  /** What the final state's gradient gives each step of the history. */
  function FinalShare(c: Conv, final: Vec, len: nat): Vec {
    u => if c.t - len <= u < c.t then final(u - (c.t - len)) else 0.0
  }

  /** The final state's gradient against its derivative, by the inputs' and the state's steps. */
  lemma FinalParts(c: Conv, d: Direction, final: Vec, len: nat)
    requires c.Valid()
    ensures Dot(len, final, FinalAlong(c, d, len))
         == Sum(0, c.t, Times(FinalShare(c, final, len), HistoryAlong(c, d)))
            + Sum(0 - c.w, 0, Times(FinalShare(c, final, len), HistoryAlong(c, d)))
  {
    hide Sum;
    var f := Times(FinalShare(c, final, len), HistoryAlong(c, d));
    SumShift(0, len, c.t - len, f, Times(final, FinalAlong(c, d, len)));
    SumSplit(0 - c.w, 0, c.t, f);
    if c.t - len < 0 - c.w {
      SumSplit(c.t - len, 0 - c.w, c.t, f);
      SumZero(c.t - len, 0 - c.w, f);
    } else {
      SumSplit(0 - c.w, c.t - len, c.t, f);
      SumZero(0 - c.w, c.t - len, f);
    }
  }

  /** With a final state asked for, its gradient besides the output's: still the adjoint. */
  lemma FinalAdjoint(c: Conv, d: Direction, g: Vec, final: Vec, len: nat, dx: Vec, dstate: Vec)
    requires c.Valid()
    requires forall u :: 0 <= u < c.t ==> dx(u) == GradWithFinal(c, g, final, len)(u)
    requires forall s :: 0 <= s < c.w ==> dstate(s) == GradWithFinal(c, g, final, len)(s - c.w)
    ensures Dot(c.t, g, OutTangents(c, d)) + Dot(len, final, FinalAlong(c, d, len))
         == Dot(c.t, dx, d.x) + Dot(c.w, dstate, d.state) + Dot(c.k, GradWeight(c, g), d.weight)
            + d.bias * GradBias(c, g)
  {
    hide Sum, GradHistory, OutTangents, GradWeight, GradBias, Dot, FinalShare;
    var dstate0: Vec := s => GradHistory(c, g)(s - c.w);
    ConvolutionAdjoint(c, d, g, GradHistory(c, g), dstate0);
    FinalParts(c, d, final, len);
    InputShare(c, d, g, final, len, dx);
    StateShare(c, d, g, final, len, dstate, dstate0);
  }

  lemma InputShare(c: Conv, d: Direction, g: Vec, final: Vec, len: nat, dx: Vec)
    requires c.Valid()
    requires forall u :: 0 <= u < c.t ==> dx(u) == GradWithFinal(c, g, final, len)(u)
    ensures Dot(c.t, dx, d.x)
         == Dot(c.t, GradHistory(c, g), d.x) + Sum(0, c.t, Times(FinalShare(c, final, len), HistoryAlong(c, d)))
  {
    hide Sum, GradHistory, FinalShare;
    var share, f := FinalShare(c, final, len), Times(FinalShare(c, final, len), HistoryAlong(c, d));
    forall u | 0 <= u < c.t
      ensures Times(dx, d.x)(u) == Times(GradHistory(c, g), d.x)(u) + f(u)
    {
      SharesAdd(GradHistory(c, g)(u), share(u), d.x(u));
    }
    SumAdd(0, c.t, Times(GradHistory(c, g), d.x), f, Times(dx, d.x));
  }

  lemma StateShare(c: Conv, d: Direction, g: Vec, final: Vec, len: nat, dstate: Vec, dstate0: Vec)
    requires c.Valid()
    requires forall s :: 0 <= s < c.w ==>
      dstate(s) == GradWithFinal(c, g, final, len)(s - c.w) && dstate0(s) == GradHistory(c, g)(s - c.w)
    ensures Dot(c.w, dstate, d.state)
         == Dot(c.w, dstate0, d.state) + Sum(0 - c.w, 0, Times(FinalShare(c, final, len), HistoryAlong(c, d)))
  {
    hide Sum, GradHistory, FinalShare;
    var share, f := FinalShare(c, final, len), Times(FinalShare(c, final, len), HistoryAlong(c, d));
    var fs: Vec := s => f(s + (0 - c.w));
    forall s | 0 <= s < c.w
      ensures Times(dstate, d.state)(s) == Times(dstate0, d.state)(s) + fs(s)
    {
      assert HistoryAlong(c, d)(s - c.w) == d.state(s);
      SharesAdd(dstate0(s), share(s - c.w), d.state(s));
    }
    SumAdd(0, c.w, Times(dstate0, d.state), fs, Times(dstate, d.state));
    SumShift(0, c.w, 0 - c.w, f, fs);
  }

  lemma SharesAdd(a: real, b: real, f: real)
    ensures (a + b) * f == a * f + b * f
  {
  }

  function Later(g: Vec, at: int): Vec { u => g(at + u) }

  /** Before the activation the pieces' gradients are the whole's, each on its own steps. */
  lemma SplitGPre(c: Conv, at: nat, len: nat, g: Vec, u: int)
    requires c.Valid() && at <= c.t && len >= c.k - 1
    ensures GPre(UpTo(c, at), g)(u) == if u < at then GPre(c, g)(u) else 0.0
    ensures GPre(From(c, at, len), Later(g, at))(u) == if u >= 0 then GPre(c, g)(at + u) else 0.0
  {
    hide Sum, Slope;
    SplitOutputs(c, at, len, u);
  }

  /** Every step of the history: the whole's gradient is the two pieces'. */
  lemma SplitHistory(c: Conv, at: nat, len: nat, g: Vec, u: int)
    requires c.Valid() && at <= c.t && len >= c.k - 1
    ensures GradHistory(c, g)(u) == GradHistory(UpTo(c, at), g)(u) + GradHistory(From(c, at, len), Later(g, at))(u - at)
  {
    hide Sum, GPre;
    forall j | 0 <= j < c.k
      ensures HistoryTerms(c, g, u)(j)
           == HistoryTerms(UpTo(c, at), g, u)(j) + HistoryTerms(From(c, at, len), Later(g, at), u - at)(j)
    {
      var v := u + c.k - 1 - j;
      SplitGPre(c, at, len, g, v);
      SplitGPre(c, at, len, g, v - at);
      assert u - at + c.k - 1 - j == v - at;
    }
    SumAdd(0, c.k, HistoryTerms(UpTo(c, at), g, u), HistoryTerms(From(c, at, len), Later(g, at), u - at),
           HistoryTerms(c, g, u));
  }

  /** Split anywhere and continued from a final state of `len` >= k - 1 steps, the gradients are the
      whole sequence's: the second piece's state gradient is what flows into the first's final state,
      and the rest of its history's gradient is the whole's there. */
  lemma SplitGradients(c: Conv, at: nat, len: nat, g: Vec, final: Vec, finalLen: nat, u: int)
    requires c.Valid() && at <= c.t && len >= c.k - 1 && finalLen <= len + (c.t - at)
    ensures var second := GradWithFinal(From(c, at, len), Later(g, at), final, finalLen);
            var dFinal: Vec := s => second(s - len);
            && (u < at ==> GradWithFinal(c, g, final, finalLen)(u) == GradWithFinal(UpTo(c, at), g, dFinal, len)(u))
            && (u >= at ==> GradWithFinal(c, g, final, finalLen)(u) == second(u - at))
  {
    hide Sum, GPre, GradHistory;
    SplitHistory(c, at, len, g, u);
    if u < at {
      if u < at - len {
        OldStep(From(c, at, len), Later(g, at), u - at);
      }
    } else {
      PastEnd(UpTo(c, at), g, u);
    }
  }

  lemma PastEnd(c: Conv, g: Vec, u: int)
    requires c.Valid() && u >= c.t
    ensures GradHistory(c, g)(u) == 0.0
  {
    hide Sum;
    forall j | 0 <= j < c.k
      ensures HistoryTerms(c, g, u)(j) == 0.0
    {
      NoGradient(c, g, u + c.k - 1 - j);
    }
    SumZero(0, c.k, HistoryTerms(c, g, u));
  }

  /** The pieces' weight and bias gradients add to the whole's. */
  lemma SplitParameters(c: Conv, at: nat, len: nat, g: Vec, j: int)
    requires c.Valid() && at <= c.t && len >= c.k - 1 && 0 <= j < c.k
    ensures GradWeight(c, g)(j) == GradWeight(UpTo(c, at), g)(j) + GradWeight(From(c, at, len), Later(g, at))(j)
    ensures GradBias(c, g) == GradBias(UpTo(c, at), g) + GradBias(From(c, at, len), Later(g, at))
  {
    hide Sum, GPre;
    var whole, first := WeightTerms(c, g, j), WeightTerms(UpTo(c, at), g, j);
    var second := WeightTerms(From(c, at, len), Later(g, at), j);
    SumSplit(0, at, c.t, whole);
    SumSplit(0, at, c.t, GPre(c, g));
    forall u | 0 <= u < at
      ensures whole(u) == first(u) && GPre(c, g)(u) == GPre(UpTo(c, at), g)(u)
    {
      SplitGPre(c, at, len, g, u);
      UpToHistory(c, at, u - (c.k - 1) + j);
    }
    SumEqual(0, at, whole, first);
    SumEqual(0, at, GPre(c, g), GPre(UpTo(c, at), g));
    forall u | 0 <= u < c.t - at
      ensures second(u) == whole(u + at) && GPre(From(c, at, len), Later(g, at))(u) == GPre(c, g)(u + at)
    {
      SplitGPre(c, at, len, g, u);
      FromHistory(c, at, len, u - (c.k - 1) + j);
      assert at + (u - (c.k - 1) + j) == (u + at) - (c.k - 1) + j;
    }
    SumShift(0, c.t - at, at, whole, second);
    SumShift(0, c.t - at, at, GPre(c, g), GPre(From(c, at, len), Later(g, at)));
  }

  // ----- a batch -----

  /** A direction in a batch: every sequence's inputs and state, the taps and the bias they share. */
  datatype BatchDirection = BatchDirection(x: int -> Vec, states: int -> Vec, weight: Vec, bias: real) {

    function At(b: int): Direction { Direction(x(b), states(b), weight, bias) }
  }

  /** The outputs' gradients of the first n sequences against their derivatives. */
  ghost function BatchPairing(cs: seq<Conv>, gs: seq<Vec>, d: BatchDirection, n: nat): real
    requires n <= |cs| == |gs| && forall b :: 0 <= b < |cs| ==> cs[b].Valid()
  {
    if n == 0 then 0.0
    else BatchPairing(cs, gs, d, n - 1) + Dot(cs[n - 1].t, gs[n - 1], OutTangents(cs[n - 1], d.At(n - 1)))
  }

  /** The inputs' and states' gradients of the first n sequences against the direction. */
  function HistoryPairing(t: nat, w: nat, dx: seq<seq<real>>, dstate: seq<seq<real>>, d: BatchDirection, n: nat): real
    requires n <= |dx| == |dstate|
  {
    if n == 0 then 0.0
    else
      HistoryPairing(t, w, dx, dstate, d, n - 1) + Dot(t, Entries(dx[n - 1]), d.x(n - 1))
      + Dot(w, Entries(dstate[n - 1]), d.states(n - 1))
  }

  function Entries(s: seq<real>): Vec { i => if 0 <= i < |s| then s[i] else 0.0 }

  ghost function WeightsOver(cs: seq<Conv>, gs: seq<Vec>, n: nat): Vec
    requires n <= |cs| == |gs| && forall b :: 0 <= b < |cs| ==> cs[b].Valid()
  {
    j => WeightOver(cs, gs, n, j)
  }

  /** What a batch's kernels leave is the adjoint of the batch: every sequence's gradients of its inputs and
      its state, and the rows' totals for the taps and the bias they share. */
  lemma {:induction false} BatchAdjoint(cs: seq<Conv>, gs: seq<Vec>, k: nat, t: nat, w: nat, d: BatchDirection,
                                        dx: seq<seq<real>>, dstate: seq<seq<real>>, n: nat)
    requires n <= |cs| == |gs| == |dx| == |dstate| && OneChannel(cs, k, t, w)
    requires forall b :: 0 <= b < |cs| ==> HistoryDone(cs[b], gs[b], dx[b], dstate[b])
    ensures BatchPairing(cs, gs, d, n)
         == HistoryPairing(t, w, dx, dstate, d, n) + Dot(k, WeightsOver(cs, gs, n), d.weight)
            + d.bias * BiasOver(cs, gs, n)
    decreases n
  {
    hide Sum, Dot, OutTangents, GradWeight, GradBias, HistoryDone;
    if n == 0 {
      NoWeight(k, WeightsOver(cs, gs, 0), d.weight);
    } else {
      BatchAdjoint(cs, gs, k, t, w, d, dx, dstate, n - 1);
      OneSequenceMore(cs, gs, k, t, w, d, dx, dstate, n - 1);
    }
  }

  /** What one sequence more adds to each side. */
  lemma OneSequenceMore(cs: seq<Conv>, gs: seq<Vec>, k: nat, t: nat, w: nat, d: BatchDirection, dx: seq<seq<real>>,
                        dstate: seq<seq<real>>, b: nat)
    requires b < |cs| == |gs| == |dx| == |dstate| && OneChannel(cs, k, t, w)
    requires HistoryDone(cs[b], gs[b], dx[b], dstate[b])
    ensures BatchPairing(cs, gs, d, b + 1) - BatchPairing(cs, gs, d, b)
         == HistoryPairing(t, w, dx, dstate, d, b + 1) - HistoryPairing(t, w, dx, dstate, d, b)
            + (Dot(k, WeightsOver(cs, gs, b + 1), d.weight) - Dot(k, WeightsOver(cs, gs, b), d.weight))
            + (d.bias * BiasOver(cs, gs, b + 1) - d.bias * BiasOver(cs, gs, b))
  {
    hide Sum, Dot, OutTangents, GradWeight, GradBias, HistoryDone;
    var c, g, along := cs[b], gs[b], d.At(b);
    assert c.Valid() && c.k == k && c.t == t && c.w == w;
    SequenceShare(c, g, along, dx[b], dstate[b]);
    OneWeightMore(k, WeightsOver(cs, gs, b), GradWeight(c, g), WeightsOver(cs, gs, b + 1), d.weight);
    BiasAdds(d.bias, BiasOver(cs, gs, b), GradBias(c, g), BiasOver(cs, gs, b + 1));
  }

  lemma BiasAdds(f: real, before: real, more: real, after: real)
    requires after == before + more
    ensures f * after == f * before + f * more
  {
  }

  lemma SequenceShare(c: Conv, g: Vec, d: Direction, dx: seq<real>, dstate: seq<real>)
    requires c.Valid() && HistoryDone(c, g, dx, dstate)
    ensures Dot(c.t, g, OutTangents(c, d))
         == Dot(c.t, Entries(dx), d.x) + Dot(c.w, Entries(dstate), d.state) + Dot(c.k, GradWeight(c, g), d.weight)
            + d.bias * GradBias(c, g)
  {
    hide Sum, Dot, OutTangents, GradHistory, GradWeight, GradBias;
    ConvolutionAdjoint(c, d, g, Entries(dx), Entries(dstate));
  }

  lemma NoWeight(k: nat, w: Vec, along: Vec)
    requires forall j :: w(j) == 0.0
    ensures Dot(k, w, along) == 0.0
  {
    hide Sum;
    SumZero(0, k, Times(w, along));
  }

  lemma OneWeightMore(k: nat, before: Vec, more: Vec, after: Vec, along: Vec)
    requires forall j :: after(j) == before(j) + more(j)
    ensures Dot(k, after, along) == Dot(k, before, along) + Dot(k, more, along)
  {
    hide Sum, Dot;
    DotPlus(k, along, before, more, after);
    DotSymmetric(k, along, before);
    DotSymmetric(k, along, more);
    DotSymmetric(k, along, after);
  }
}
