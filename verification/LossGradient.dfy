/** The fused linear cross-entropy: each row's loss from the pass's state, the gradient of its logits
    from four coefficients, the target's own value rearranged so that its term is never subtracted
    from a sum that holds it, and the proof that it is the adjoint of the contract's derivative. */
module LossGradient {
  import opened Sums
  import opened Vectors
  import opened Analysis
  import opened LogprobState
  import opened RowDerivative
  import opened Chunks
  import V = Vocabulary

  /** The options the row's work depends on: label smoothing, the z-loss coefficient, the number of
      unmasked ids, and whether the entropy is asked for. */
  datatype Options = Options(eps: real, zLoss: real, classes: nat, entropy: bool) {
    ghost predicate Valid() { 0.0 <= eps <= 1.0 && zLoss >= 0.0 && classes > 0 }
  }

  datatype LossValue = Infinite | Finite(val: real) {
    function Plus(x: real): LossValue { if Infinite? then Infinite else Finite(val + x) }
  }

  /** What the forward pass gives of a row. */
  datatype Outputs = Outputs(loss: LossValue, logprob: Extended, entropy: real, m: real, s: real, q: real)

  /** `forward` for one row: `valid` the target is a token not masked, `counted` it is not the ignore
      index. */
  function LossForward(e: Exponential, o: Options, st: Part, zt: real, valid: bool, counted: bool): Outputs
    requires st.s > 0.0 && o.classes > 0
  {
    var lnS := e.ln(st.s);
    var lse := st.m + lnS;
    var logprob := if valid then Fin(zt - lse) else NegInf;
    var loss0 :=
      if o.eps < 1.0 then (if valid then Finite((lse - zt) * (1.0 - o.eps)) else Infinite) else Finite(0.0);
    var loss1 := if o.eps != 0.0 then loss0.Plus((lse - st.z * (1.0 / o.classes as real)) * o.eps) else loss0;
    var loss2 := if o.zLoss != 0.0 then loss1.Plus(lse * lse * o.zLoss) else loss1;
    var entropy := lnS - st.a / st.s;
    if counted then Outputs(loss2, logprob, entropy, st.m, st.s, st.r / st.s)
    else Outputs(Finite(0.0), Fin(0.0), 0.0, st.m, st.s, st.r / st.s)
  }

  /** The contract's loss of a counted row: infinite where its target has probability zero. */
  function ContractLoss(r: TokenRow, o: Options): LossValue
    requires o.classes > 0
  {
    if r.target < 0 then Infinite else Finite(LossOf(r, o.eps, o.zLoss, o.classes))
  }

  /** What the forward pass gives: the contract's log-probability and entropy; a loss infinite where the
      target is not found and its term has a weight, and otherwise the formula's; zeros for an ignored
      row; and q, what the target leaves of 1. */
  lemma ForwardIsContract(r: TokenRow, o: Options, st: Part, zt: real, counted: bool)
    requires r.Valid() && o.Valid() && SomeToken(r) && Holds(r, st, Before(r.vocab)) && zt == TargetLogit(r, r.vocab)
    ensures st.s > 0.0
    ensures var out := LossForward(r.e, o, st, zt, r.target >= 0, counted);
            && (counted ==>
                  && out.logprob == LogprobOf(r) && out.entropy == EntropyOf(r)
                  && (out.loss == if r.target >= 0 || o.eps == 1.0 then Finite(LossOf(r, o.eps, o.zLoss, o.classes))
                                  else Infinite))
            && (!counted ==> out.loss == Finite(0.0) && out.logprob == Fin(0.0) && out.entropy == 0.0)
            && out.q == (if r.target >= 0 then 1.0 - Probability(r, r.target) else 1.0)
  {
    hide Holds, EntropyOf, Z, Total, Probability;
    PassGivesContract(r, st, zt);
    var lse := st.m + r.e.ln(st.s);
    var k := o.classes as real;
    LossArithmetic(o.eps, o.zLoss, lse, zt, st.z, k);
    QuotientOfOthers(r, st);
  }

  /** The loss of a counted row is the contract's exactly unless its target is not found and the
      smoothing leaves the target's term no weight. */
  lemma LossIsContract(r: TokenRow, o: Options, st: Part, zt: real)
    requires r.Valid() && o.Valid() && SomeToken(r) && Holds(r, st, Before(r.vocab)) && zt == TargetLogit(r, r.vocab)
    ensures st.s > 0.0
    ensures LossForward(r.e, o, st, zt, r.target >= 0, true).loss == ContractLoss(r, o)
       <==> !(r.target < 0 && o.eps == 1.0)
  {
    hide Holds, LossForward, LossOf;
    ForwardIsContract(r, o, st, zt, true);
  }

  /** One token, no target, a smoothing of 1: the code's loss is finite and the contract's is not. */
  lemma FullSmoothing(e: Exponential, st: Part, zt: real)
    requires e.Laws()
    requires var r := TokenRow(e, 1, j => 0.0, j => false, -1); Holds(r, st, Before(1)) && zt == TargetLogit(r, 1)
    ensures st.s > 0.0
    ensures var r := TokenRow(e, 1, j => 0.0, j => false, -1);
            var o := Options(1.0, 0.0, 1, false);
            LossForward(e, o, st, zt, false, true).loss.Finite? && ContractLoss(r, o) == Infinite
  {
    hide Holds, LossForward, LossOf;
    var r := TokenRow(e, 1, j => 0.0, j => false, -1);
    assert !r.masked(0) && SomeToken(r);
    ForwardIsContract(r, Options(1.0, 0.0, 1, false), st, zt, true);
  }

  lemma LossArithmetic(eps: real, zLoss: real, lse: real, zt: real, zsum: real, k: real)
    requires k > 0.0
    ensures (lse - zt) * (1.0 - eps) + (lse - zsum * (1.0 / k)) * eps + lse * lse * zLoss
         == (1.0 - eps) * (lse - zt) + eps * (lse - zsum / k) + zLoss * (lse * lse)
  {
    Ratio(zsum, k);
    assert zsum * (1.0 / k) == zsum / k;
  }

  lemma QuotientOfOthers(r: TokenRow, st: Part)
    requires r.Valid() && SomeToken(r) && st.s > 0.0 && st.s * r.e.exp(st.m) == Z(r)
    requires st.r * r.e.exp(st.m) == Z(r) - (if r.target >= 0 then r.e.exp(r.z(r.target)) else 0.0)
    ensures st.r / st.s == if r.target >= 0 then 1.0 - Probability(r, r.target) else 1.0
  {
    hide Z;
    ZIsPositive(r);
    var z := Z(r);
    QuotientOfScaled(st.r, st.s, r.e.exp(st.m));
    if r.target >= 0 {
      var w := r.e.exp(r.z(r.target));
      ExpOfDifference(r.e, r.z(r.target), z);
      QuotientOfDifference(z, w);
    } else {
      Ratio(z, z);
    }
  }

  lemma QuotientOfDifference(z: real, w: real)
    requires z > 0.0
    ensures (z - w) / z == 1.0 - w / z
  {
    Ratio(z - w, z);
    Ratio(w, z);
    var u := 1.0 / z;
    assert u * (z - w) == u * z - u * w;
  }

  // ----- the coefficients -----

  /** What flows back into a row's loss, log-probability and entropy. */
  datatype Upstream = Upstream(loss: real, logprob: real, entropy: real)

  /** 0 for an ignored row whatever it holds; no entropy unless it was asked for. */
  function Counted(o: Options, g: Upstream, counted: bool): Upstream {
    if counted then Upstream(g.loss, g.logprob, if o.entropy then g.entropy else 0.0) else Upstream(0.0, 0.0, 0.0)
  }

  datatype Coefficients = Coefficients(m: real, s: real, softmax: real, entropy: real, target: real, uniform: real)

  function ValueOf(x: Extended): real { if x.Fin? then x.val else 0.0 }

  /** What a row's gradient is built from: one factor for the probabilities, one for the entropy's
      derivative, what every unmasked token adds, and what the target holds in all. */
  function CoefficientsOf(e: Exponential, o: Options, out: Outputs, g: Upstream, valid: bool,
                          counted: bool): Coefficients
    requires o.classes > 0
  {
    var gl, gp := if counted then g.loss else 0.0, if counted then g.logprob else 0.0;
    var q := out.q;
    var lse := out.m + e.ln(out.s);
    var twice := 2.0 * o.zLoss;
    var softmax0 := gl - gp;
    var softmax1 := if o.zLoss != 0.0 then softmax0 + gl * (lse * twice) else softmax0;
    var glTarget := if o.zLoss != 0.0 then gl * o.eps + gl * (lse * twice) else gl * o.eps;
    var target1 := -(q * softmax1) + glTarget;
    var ge := if o.entropy then (if counted then g.entropy else 0.0) else 0.0;
    var entropy := if o.entropy then ge * out.entropy else 0.0;
    var pTarget := -(q - 1.0);
    var softmax := if o.entropy then softmax1 - entropy else softmax1;
    var target2 := if o.entropy then target1 - (pTarget * entropy + ge * pTarget * ValueOf(out.logprob)) else target1;
    var target := if valid then target2 else 0.0;
    var uniform := gl * (-o.eps / (o.classes as real));
    Coefficients(out.m, out.s, softmax, ge, target + uniform, uniform)
  }

  /** The gradient kernel's element: 0 for a masked token, the target's value for the target, else
      p A - p (z - lse) E + C. */
  function Element(e: Exponential, o: Options, c: Coefficients, masked: bool, isTarget: bool, z: real): real
    requires c.s > 0.0
  {
    if masked then 0.0
    else if isTarget then c.target
    else
      var d := z - c.m;
      var p := e.exp(d) / c.s;
      var g := p * c.softmax;
      (if o.entropy then g - p * (d - e.ln(c.s)) * c.entropy else g) + c.uniform
  }

  // ----- the gradient of the logits -----

  /** What the loss, the log-probability and the entropy give token j, the target's own share apart. */
  function Shared(r: TokenRow, o: Options, g: Upstream, j: int): real
    requires o.classes > 0
  {
    var p := Probability(r, j);
    p * (g.loss * (1.0 + 2.0 * o.zLoss * r.e.ln(Z(r))) - g.logprob - g.entropy * EntropyOf(r))
    - p * LogProbability(r, j) * g.entropy + g.loss * (-o.eps / (o.classes as real))
  }

  /** The gradient of the logits, term by term. */
  function LogitGradient(r: TokenRow, o: Options, g: Upstream): Vec
    requires o.classes > 0
  {
    j =>
      if r.masked(j) then 0.0
      else Shared(r, o, g, j) + (if j == r.target then g.logprob - g.loss * (1.0 - o.eps) else 0.0)
  }

  /** Away from the target the kernel's element is the gradient. */
  lemma ElementElsewhere(r: TokenRow, o: Options, g: Upstream, j: int, m: real, s: real, softmax: real, target: real)
    requires r.e.Laws() && o.classes > 0 && !r.masked(j) && j != r.target
    requires s > 0.0 && Z(r) > 0.0 && s * r.e.exp(m) == Z(r) && m + r.e.ln(s) == r.e.ln(Z(r))
    requires softmax == g.loss * (1.0 + 2.0 * o.zLoss * r.e.ln(Z(r))) - g.logprob - g.entropy * EntropyOf(r)
    requires !o.entropy ==> g.entropy == 0.0
    ensures Element(r.e, o, Coefficients(m, s, softmax, g.entropy, target, g.loss * (-o.eps / (o.classes as real))),
                    false, false, r.z(j))
         == LogitGradient(r, o, g)(j)
  {
    hide Z, EntropyOf;
    ExpShift(r.e, r.z(j), m);
    ExpOfDifference(r.e, r.z(j), Z(r));
    QuotientOfScaled(r.e.exp(r.z(j) - m), s, r.e.exp(m));
    assert r.e.exp(r.z(j) - m) / s == Probability(r, j);
    assert r.z(j) - m - r.e.ln(s) == LogProbability(r, j);
  }

  /** The target's value T, q = 1 - p what the target leaves of 1. */
  function TargetValue(p: real, logp: real, g: Upstream, h: real, eps: real, zLoss: real, lse: real): real {
    -((1.0 - p) * (g.loss - g.logprob + g.loss * (lse * (2.0 * zLoss))))
    + (g.loss * eps + g.loss * (lse * (2.0 * zLoss)))
    - (p * (g.entropy * h) + g.entropy * p * logp)
  }

  /** The rearranged value is the gradient's: nothing that holds the target's term is subtracted. */
  lemma TargetRearranged(p: real, logp: real, g: Upstream, h: real, eps: real, zLoss: real, lse: real)
    ensures TargetValue(p, logp, g, h, eps, zLoss, lse)
         == p * (g.loss * (1.0 + 2.0 * zLoss * lse) - g.logprob - g.entropy * h) - p * logp * g.entropy
            + (g.logprob - g.loss * (1.0 - eps))
  {
  }

  lemma ElementAtTarget(r: TokenRow, o: Options, g: Upstream, target: real)
    requires o.classes > 0 && r.target >= 0 && !r.masked(r.target)
    requires target == TargetValue(Probability(r, r.target), LogProbability(r, r.target), g, EntropyOf(r), o.eps,
                                   o.zLoss, r.e.ln(Z(r)))
                       + g.loss * (-o.eps / (o.classes as real))
    ensures target == LogitGradient(r, o, g)(r.target)
  {
    hide Z, EntropyOf, Probability, LogProbability, TargetValue;
    TargetRearranged(Probability(r, r.target), LogProbability(r, r.target), g, EntropyOf(r), o.eps, o.zLoss,
                     r.e.ln(Z(r)));
  }

  /** The coefficients stand for the contract's terms. */
  ghost predicate Stand(r: TokenRow, o: Options, c: Coefficients, u: Upstream)
    requires o.classes > 0
  {
    && c.entropy == u.entropy
    && c.softmax == u.loss * (1.0 + 2.0 * o.zLoss * r.e.ln(Z(r))) - u.logprob - u.entropy * EntropyOf(r)
    && c.uniform == u.loss * (-o.eps / (o.classes as real))
    && (r.target >= 0 ==>
          c.target == TargetValue(Probability(r, r.target), LogProbability(r, r.target), u, EntropyOf(r), o.eps,
                                  o.zLoss, r.e.ln(Z(r))) + c.uniform)
  }

  lemma ElementFromCoefficients(r: TokenRow, o: Options, c: Coefficients, u: Upstream, j: int)
    requires r.Valid() && o.Valid() && Stand(r, o, c, u) && j >= 0
    requires c.s > 0.0 && Z(r) > 0.0 && c.s * r.e.exp(c.m) == Z(r) && c.m + r.e.ln(c.s) == r.e.ln(Z(r))
    requires !o.entropy ==> u.entropy == 0.0
    ensures Element(r.e, o, c, r.masked(j), j == r.target, r.z(j)) == LogitGradient(r, o, u)(j)
  {
    hide Z, EntropyOf, TargetValue, Shared, Probability, LogProbability;
    if !r.masked(j) {
      if j == r.target {
        ElementAtTarget(r, o, u, c.target);
      } else {
        ElementElsewhere(r, o, u, j, c.m, c.s, c.softmax, c.target);
      }
    }
  }

  /** The kernel's element, from the coefficients of the forward pass's outputs, is the gradient of the
      row's logits: with or without the z-loss, the entropy, a valid target or a counted row. */
  lemma ElementIsGradient(r: TokenRow, o: Options, st: Part, zt: real, g: Upstream, counted: bool, j: int)
    requires r.Valid() && o.Valid() && SomeToken(r) && Holds(r, st, Before(r.vocab)) && zt == TargetLogit(r, r.vocab)
    ensures st.s > 0.0
    ensures var c := CoefficientsOf(r.e, o, LossForward(r.e, o, st, zt, r.target >= 0, counted), g, r.target >= 0,
                                    counted);
            var made := LogitGradient(r, o, Counted(o, g, counted));
            c.s == st.s
            && (j >= 0 ==> Element(r.e, o, c, r.masked(j), j == r.target, r.z(j)) == made(j))
  {
    hide Holds, EntropyOf, Z, LogitGradient, Element, Stand;
    PassGivesContract(r, st, zt);
    ForwardIsContract(r, o, st, zt, counted);
    ZIsPositive(r);
    var out := LossForward(r.e, o, st, zt, r.target >= 0, counted);
    var c := CoefficientsOf(r.e, o, out, g, r.target >= 0, counted);
    CoefficientValues(r, o, out, g, counted);
    if j >= 0 {
      hide CoefficientsOf, LossForward;
      ElementFromCoefficients(r, o, c, Counted(o, g, counted), j);
    }
  }

  /** The coefficients in the contract's terms. */
  lemma CoefficientValues(r: TokenRow, o: Options, out: Outputs, g: Upstream, counted: bool)
    requires r.Valid() && o.Valid()
    requires out.m + r.e.ln(out.s) == r.e.ln(Z(r))
    requires counted ==> out.entropy == EntropyOf(r) && out.logprob == LogprobOf(r)
    requires r.target >= 0 ==> out.q == 1.0 - Probability(r, r.target)
    ensures var c := CoefficientsOf(r.e, o, out, g, r.target >= 0, counted);
            c.m == out.m && c.s == out.s && Stand(r, o, c, Counted(o, g, counted))
  {
    hide Z, EntropyOf, Probability;
  }

  // ----- the adjoint identity of a row -----

  function UnmaskedOnes(r: TokenRow): Vec { j => if r.masked(j) then 0.0 else 1.0 }

  function TargetOne(r: TokenRow): Vec { j => if j == r.target then 1.0 else 0.0 }

  /** The four parts of the gradient: a p, the entropy's, C of each unmasked token, the target's. */
  lemma GradientParts(r: TokenRow, o: Options, g: Upstream, j: int)
    requires r.Valid() && o.classes > 0 && 0 <= j
    ensures LogitGradient(r, o, g)(j)
         == (g.loss * (1.0 + 2.0 * o.zLoss * r.e.ln(Z(r))) - g.logprob) * Probabilities(r)(j)
            + -g.entropy * EntropyGradient(r)(j)
            + g.loss * (-o.eps / (o.classes as real)) * UnmaskedOnes(r)(j)
            + (g.logprob - g.loss * (1.0 - o.eps)) * TargetOne(r)(j)
  {
    hide Z, EntropyOf;
    if !r.masked(j) {
      PartsArithmetic(Probability(r, j), LogProbability(r, j), EntropyOf(r),
                      g.loss * (1.0 + 2.0 * o.zLoss * r.e.ln(Z(r))) - g.logprob, g.entropy);
    }
  }

  lemma PartsArithmetic(p: real, logp: real, h: real, a: real, ge: real)
    ensures p * (a - ge * h) - p * logp * ge == a * p + -ge * (p * (logp + h))
  {
  }

  /** The gradient against any vector, part by part. */
  lemma GradientAgainst(r: TokenRow, o: Options, g: Upstream, f: Vec)
    requires r.Valid() && o.classes > 0
    ensures Dot(r.vocab, f, LogitGradient(r, o, g))
         == (g.loss * (1.0 + 2.0 * o.zLoss * r.e.ln(Z(r))) - g.logprob) * Dot(r.vocab, f, Probabilities(r))
            + -g.entropy * Dot(r.vocab, f, EntropyGradient(r))
            + (g.loss * (-o.eps / (o.classes as real)) * Dot(r.vocab, f, UnmaskedOnes(r))
               + (g.logprob - g.loss * (1.0 - o.eps)) * Dot(r.vocab, f, TargetOne(r)))
  {
    hide Sum, Dot, Z, LogitGradient, EntropyGradient, Probability;
    var a, c := g.loss * (1.0 + 2.0 * o.zLoss * r.e.ln(Z(r))) - g.logprob, g.loss * (-o.eps / (o.classes as real));
    var b := g.logprob - g.loss * (1.0 - o.eps);
    forall j | 0 <= j < r.vocab
      ensures LogitGradient(r, o, g)(j) == a * Probabilities(r)(j) + -g.entropy * EntropyGradient(r)(j)
                                           + c * UnmaskedOnes(r)(j) + b * TargetOne(r)(j)
    {
      GradientParts(r, o, g, j);
    }
    DotFour(r.vocab, f, a, Probabilities(r), -g.entropy, EntropyGradient(r), c, UnmaskedOnes(r), b, TargetOne(r),
            LogitGradient(r, o, g));
  }

  lemma AgainstTarget(r: TokenRow, f: Vec)
    requires r.Valid()
    ensures Dot(r.vocab, f, TargetOne(r)) == TargetTangent(r, f)
  {
    hide Sum;
    if r.target >= 0 {
      SumOnly(0, r.vocab, r.target, Times(f, TargetOne(r)));
    } else {
      SumZero(0, r.vocab, Times(f, TargetOne(r)));
    }
  }

  lemma AgainstUnmasked(r: TokenRow, f: Vec)
    ensures Dot(r.vocab, f, UnmaskedOnes(r)) == LogitsTangent(r, f)
  {
    hide Sum;
    forall j | 0 <= j < r.vocab
      ensures Times(f, UnmaskedOnes(r))(j) == Tangents(DualLogitTerms(r, f))(j)
    {
      assert DualLogitTerms(r, f)(j).t == if r.masked(j) then 0.0 else f(j);
      assert UnmaskedOnes(r)(j) == if r.masked(j) then 0.0 else 1.0;
    }
    SumEqual(0, r.vocab, Times(f, UnmaskedOnes(r)), Tangents(DualLogitTerms(r, f)));
  }

  /** How a row's upstream sees its logits move along zt. */
  function RowPairing(r: TokenRow, o: Options, g: Upstream, zt: Vec): real
    requires DualZ(r, zt).v > 0.0 && o.classes > 0
  {
    g.loss * DualLoss(r, zt, o.eps, o.zLoss, o.classes).t + g.logprob * DualLogprob(r, zt).t
    + g.entropy * DualEntropy(r, zt).t
  }

  /** The gradient of the logits is the adjoint of the row's loss, log-probability and entropy
      together, the target's logit a constant where it is not valid. */
  lemma RowAdjoint(r: TokenRow, o: Options, g: Upstream, zt: Vec)
    requires r.Valid() && o.Valid() && SomeToken(r)
    ensures DualZ(r, zt).v > 0.0
    ensures RowPairing(r, o, g, zt) == Dot(r.vocab, zt, LogitGradient(r, o, g))
  {
    hide Sum, Dot, Z, DualZ, DualLse, DualLoss, DualEntropy, LogitGradient, EntropyGradient, Probability, LogitsTangent;
    DualLseIs(r, zt);
    DualEntropyIs(r, zt);
    DualLossIs(r, zt, o.eps, o.zLoss, o.classes);
    GradientAgainst(r, o, g, zt);
    AgainstTarget(r, zt);
    AgainstUnmasked(r, zt);
    DotSymmetric(r.vocab, Probabilities(r), zt);
    DotSymmetric(r.vocab, EntropyGradient(r), zt);
    PairingArithmetic(g, o.eps, o.zLoss, r.e.ln(Z(r)), LseTangent(r, zt), TargetTangent(r, zt), LogitsTangent(r, zt),
                      o.classes as real, Dot(r.vocab, zt, EntropyGradient(r)));
  }

  lemma PairingArithmetic(g: Upstream, eps: real, zLoss: real, lse: real, l: real, t: real, sum: real, k: real, h: real)
    requires k > 0.0
    ensures g.loss * ((1.0 + 2.0 * zLoss * lse) * l - (1.0 - eps) * t - eps * (sum / k)) + g.logprob * (t - l)
            + g.entropy * -h
         == (g.loss * (1.0 + 2.0 * zLoss * lse) - g.logprob) * l + -g.entropy * h
            + (g.loss * (-eps / k) * sum + (g.logprob - g.loss * (1.0 - eps)) * t)
  {
    Ratio(sum, k);
    Ratio(-eps, k);
    var u := 1.0 / k;
    assert eps * (u * sum) == -((u * -eps) * sum);
  }

  /** How many tokens are not masked. */
  function Unmaskeds(r: TokenRow): real { Sum(0, r.vocab, UnmaskedOnes(r)) }

  /** A row's gradients sum to 2 zLoss lse times the loss's upstream, and to what the missing target
      term leaves where there is no valid target. */
  lemma GradientSum(r: TokenRow, o: Options, g: Upstream)
    requires r.Valid() && o.Valid() && SomeToken(r) && o.classes as real == Unmaskeds(r)
    ensures Sum(0, r.vocab, LogitGradient(r, o, g))
         == 2.0 * o.zLoss * r.e.ln(Z(r)) * g.loss + (if r.target >= 0 then 0.0 else g.loss * (1.0 - o.eps) - g.logprob)
  {
    hide Sum, Z, LogitGradient, EntropyGradient, Probability;
    var ones: Vec := j => 1.0;
    SumEqual(0, r.vocab, LogitGradient(r, o, g), Times(ones, LogitGradient(r, o, g)));
    GradientAgainst(r, o, g, ones);
    AgainstTarget(r, ones);
    SumEqual(0, r.vocab, UnmaskedOnes(r), Times(ones, UnmaskedOnes(r)));
    SumEqual(0, r.vocab, Probabilities(r), Times(ones, Probabilities(r)));
    SumEqual(0, r.vocab, EntropyGradient(r), Times(ones, EntropyGradient(r)));
    ProbabilitiesSum(r);
    EntropyGradientSum(r);
    SumArithmetic(g, o.eps, o.zLoss, r.e.ln(Z(r)), o.classes as real, if r.target >= 0 then 1.0 else 0.0);
  }

  lemma SumArithmetic(g: Upstream, eps: real, zLoss: real, lse: real, k: real, found: real)
    requires k > 0.0
    ensures (g.loss * (1.0 + 2.0 * zLoss * lse) - g.logprob) * 1.0 + -g.entropy * 0.0
            + (g.loss * (-eps / k) * k + (g.logprob - g.loss * (1.0 - eps)) * found)
         == 2.0 * zLoss * lse * g.loss + (1.0 - found) * (g.loss * (1.0 - eps) - g.logprob)
  {
    var c := -eps / k;
    assert c * k == -eps;
    assert g.loss * c * k == g.loss * (c * k);
  }

  function Absent(s: seq<nat>): Vec { j => if j >= 0 && j in s then 0.0 else 1.0 }

  lemma {:induction false} CountAbsent(s: seq<nat>, n: nat)
    requires V.Increasing(s) && forall i :: 0 <= i < |s| ==> s[i] < n
    ensures Sum(0, n, Absent(s)) == (n - |s|) as real
    decreases |s|
  {
    hide Sum;
    if s == [] {
      SumOfOnes(0, n, Absent(s));
    } else {
      var init, last := s[..|s| - 1], s[|s| - 1];
      assert s == init + [last];
      CountAbsent(init, n);
      var one: Vec := j => if j == last then 1.0 else 0.0;
      assert last !in init;
      SumAdd(0, n, Absent(s), one, Absent(init));
      SumOnly(0, n, last, one);
    }
  }

  /** The unmasked ids are the vocabulary less the masked ones. */
  lemma ClassesExact(v: V.Vocabulary, e: Exponential, i: nat, z: Vec)
    requires v.WellFormed() && i < |v.targets|
    ensures Unmaskeds(RowOf(v, e, i, z)) == (v.vocab - |v.masked|) as real
  {
    hide Sum;
    CountAbsent(v.masked, v.vocab);
    SumEqual(0, v.vocab, UnmaskedOnes(RowOf(v, e, i, z)), Absent(v.masked));
  }

  /** The entropy's gradients sum to 0. */
  lemma EntropyGradientSum(r: TokenRow)
    requires r.Valid() && SomeToken(r)
    ensures Sum(0, r.vocab, EntropyGradient(r)) == 0.0
  {
    hide Sum, Z;
    forall j | 0 <= j < r.vocab
      ensures EntropyGradient(r)(j) == 1.0 * EntropyTerms(r)(j) + EntropyOf(r) * Probabilities(r)(j)
    {
    }
    SumLinear(0, r.vocab, 1.0, EntropyTerms(r), EntropyOf(r), Probabilities(r), EntropyGradient(r));
    ProbabilitiesSum(r);
  }

  // ----- the gradients of the hidden states and of the weight -----

  /** A call: rows of hidden states h against the weight w, d wide. */
  datatype Call = Call(v: V.Vocabulary, e: Exponential, o: Options, d: nat, h: Mat, w: Mat, counted: int -> bool,
                       up: int -> Upstream) {

    ghost predicate Valid() {
      && v.WellFormed() && e.Laws() && o.Valid() && v.vocab > 0
    }

    function Rows(): nat { |v.targets| }

    /** The logits of row i, as the pass over the vocabulary is handed them. */
    function Logits(i: int): Vec { Project(d, w, Sums.Row(h, i)) }

    function LogitTerms(i: int, j: int): Vec { x => w(j, x) * h(i, x) }

    /** Row i: hidden row i against every row of the weight, and the target. */
    function RowAt(i: int): TokenRow
      requires 0 <= i < |v.targets| == |v.valid|
    {
      TokenRow(e, v.vocab, j => Sum(0, d, LogitTerms(i, j)), j => j in v.masked,
               if v.valid[i] then v.targets[i] else -1)
    }

    function UpAt(i: int): Upstream { Counted(o, up(i), counted(i)) }

    /** The gradient of the logits, n x V. */
    function G(): Mat
      requires |v.targets| == |v.valid| && o.classes > 0
    {
      (i, j) => if 0 <= i < |v.targets| then LogitGradient(RowAt(i), o, UpAt(i))(j) else 0.0
    }

    /** The forward pass's outputs for row i, from a finished pass over the vocabulary. */
    ghost predicate Finished(i: int, out: Outputs)
      requires Valid() && 0 <= i < Rows()
    {
      exists st: Part, zt :: st.s > 0.0 && Holds(RowAt(i), st, Before(v.vocab)) && zt == TargetLogit(RowAt(i), v.vocab)
        && out == LossForward(e, o, st, zt, v.valid[i], counted(i))
    }

    /** What the outputs say of row i. */
    ghost predicate Reports(i: int, out: Outputs)
      requires Valid() && 0 <= i < Rows()
    {
      var r := RowAt(i);
      if counted(i) then
        && out.logprob == LogprobOf(r) && out.entropy == EntropyOf(r)
        && (r.target >= 0 || o.eps < 1.0 ==> out.loss == ContractLoss(r, o))
        && (r.target < 0 && o.eps == 1.0 ==> out.loss == Finite(LossOf(r, o.eps, o.zLoss, o.classes)))
      else out.loss == Finite(0.0) && out.logprob == Fin(0.0) && out.entropy == 0.0
    }

    function Coef(i: int, out: Outputs): Coefficients
      requires 0 <= i < |v.valid| && o.classes > 0
    {
      CoefficientsOf(e, o, out, up(i), v.valid[i], counted(i))
    }
  }

  lemma RowIsHanded(c: Call, i: int)
    requires c.Valid() && 0 <= i < c.Rows()
    ensures SameRow(RowOf(c.v, c.e, i, c.Logits(i)), c.RowAt(i))
    ensures forall j :: c.Logits(i)(j) == c.RowAt(i).z(j)
  {
    hide Sum;
    forall j
      ensures c.Logits(i)(j) == c.RowAt(i).z(j)
    {
      SumEqual(0, c.d, Times(Sums.Row(c.w, j), Sums.Row(c.h, i)), c.LogitTerms(i, j));
    }
  }

  /** A row of a call is valid and has a token. */
  lemma RowAtIs(c: Call, i: int)
    requires c.Valid() && 0 <= i < c.Rows()
    ensures c.RowAt(i).Valid() && SomeToken(c.RowAt(i)) && (c.RowAt(i).target >= 0 <==> c.v.valid[i])
  {
    RowIsValid(c.v, c.e, i, c.Logits(i));
    RowIsHanded(c, i);
    var j :| 0 <= j < c.v.vocab && !RowOf(c.v, c.e, i, c.Logits(i)).masked(j);
    assert !c.RowAt(i).masked(j);
  }

  lemma GradientAt(c: Call, i: int, j: int)
    requires c.Valid() && 0 <= i < c.Rows()
    ensures c.G()(i, j) == LogitGradient(c.RowAt(i), c.o, Counted(c.o, c.up(i), c.counted(i)))(j)
  {
    assert c.UpAt(i) == Counted(c.o, c.up(i), c.counted(i));
  }

  /** The kernel's element (i, col) of a chunk is the gradient of row i's logit c0 + col. */
  lemma ChunkElement(c: Call, i: int, out: Outputs, c0: nat, c1: int, col: int)
    requires c.Valid() && 0 <= i < c.Rows() && c.Finished(i, out) && 0 <= col < c1 - c0
    ensures c.Coef(i, out).s > 0.0
    ensures Element(c.e, c.o, c.Coef(i, out), c.v.KernelMasks(c0, c1, col), col == c.v.LocalTarget(i, c0, c1),
                    c.Logits(i)(c0 + col))
         == c.G()(i, c0 + col)
  {
    hide Holds, Element, CoefficientsOf, LossForward, LogitGradient;
    var r := c.RowAt(i);
    RowAtIs(c, i);
    RowIsHanded(c, i);
    var st: Part, zt :| st.s > 0.0 && Holds(r, st, Before(c.v.vocab)) && zt == TargetLogit(r, c.v.vocab)
      && out == LossForward(c.e, c.o, st, zt, c.v.valid[i], c.counted(i));
    ElementIsGradient(r, c.o, st, zt, c.up(i), c.counted(i), c0 + col);
    V.KernelMasksExact(c.v, c0, c1, col);
    assert c.v.KernelMasks(c0, c1, col) == r.masked(c0 + col);
    assert (col == c.v.LocalTarget(i, c0, c1)) == (c0 + col == r.target);
    assert (r.target >= 0) == c.v.valid[i];
    GradientAt(c, i, c0 + col);
  }

  /** A chunk's gradient of the logits for the rows of a block, as the kernel forms it. */
  function ChunkGradient(c: Call, outs: seq<Outputs>, c0: nat, c1: int): Mat
    requires |outs| == |c.v.targets| == |c.v.valid| && V.Increasing(c.v.masked) && c.o.classes > 0
    requires forall i :: 0 <= i < |outs| ==> c.Coef(i, outs[i]).s > 0.0
  {
    (i, j) =>
      if 0 <= i < |outs| && c0 <= j < c1
      then Element(c.e, c.o, c.Coef(i, outs[i]), c.v.KernelMasks(c0, c1, j - c0), j - c0 == c.v.LocalTarget(i, c0, c1),
                   c.Logits(i)(j))
      else 0.0
  }

  lemma ChunkGradientExact(c: Call, outs: seq<Outputs>, c0: nat, c1: int)
    requires c.Valid() && |outs| == c.Rows() && forall i :: 0 <= i < |outs| ==> c.Finished(i, outs[i])
    ensures forall i :: 0 <= i < |outs| ==> c.Coef(i, outs[i]).s > 0.0
    ensures forall i, j :: 0 <= i < |outs| && c0 <= j < c1 ==> ChunkGradient(c, outs, c0, c1)(i, j) == c.G()(i, j)
  {
    hide Element, Call.Finished, Call.Coef, Call.G;
    forall i | 0 <= i < |outs|
      ensures c.Coef(i, outs[i]).s > 0.0
    {
      ChunkElement(c, i, outs[i], 0, 1, 0);
    }
    forall i, j | 0 <= i < |outs| && c0 <= j < c1
      ensures ChunkGradient(c, outs, c0, c1)(i, j) == c.G()(i, j)
    {
      ChunkElement(c, i, outs[i], c0, c1, j - c0);
    }
  }

  function OrZero(o: Option<Mat>): Mat { if o.Some? then o.value else (i, x) => 0.0 }

  function AddTo(o: Option<Mat>, t: Mat): Mat {
    if o.Some? then var s := o.value; (i, x) => s(i, x) + t(i, x) else t
  }

  /** g W over the tokens of a chunk, and g^T h over the rows of a block. */
  function HiddenPart(g: Mat, w: Mat, c0: int, c1: int): Mat { (i, x) => Sum(c0, c1, Times(Sums.Row(g, i), Col(w, x))) }

  function WeightPart(g: Mat, h: Mat, r0: int, r1: int): Mat { (j, x) => Sum(r0, r1, Times(Col(g, j), Col(h, x))) }

  /** A block's hidden gradient holds the tokens before `upto`. */
  ghost predicate HiddenHolds(c: Call, r0: int, r1: int, upto: int, acc: Option<Mat>)
    requires c.Valid()
  {
    forall i, x :: r0 <= i < r1 ==> OrZero(acc)(i, x) == Combine(upto, Sums.Row(c.G(), i), c.w)(x)
  }

  /** A chunk's weight gradient holds the rows before `upto`. */
  ghost predicate WeightHolds(c: Call, c0: int, c1: int, upto: int, acc: Option<Mat>)
    requires c.Valid()
  {
    forall j, x :: c0 <= j < c1 ==> OrZero(acc)(j, x) == Combine(upto, Col(c.G(), j), c.h)(x)
  }

  lemma HiddenStarts(c: Call, r0: int, r1: int)
    requires c.Valid()
    ensures HiddenHolds(c, r0, r1, 0, None)
  {
    hide Call.G;
    forall i, x | r0 <= i < r1
      ensures Combine(0, Sums.Row(c.G(), i), c.w)(x) == 0.0
    {
      CombineAt(0, Sums.Row(c.G(), i), c.w, x);
    }
  }

  lemma WeightStarts(c: Call, c0: int, c1: int)
    requires c.Valid()
    ensures WeightHolds(c, c0, c1, 0, None)
  {
    hide Call.G;
    forall j, x | c0 <= j < c1
      ensures Combine(0, Col(c.G(), j), c.h)(x) == 0.0
    {
      CombineAt(0, Col(c.G(), j), c.h, x);
    }
  }

  /** A tile of the gradient of the logits is right on the rows r0..r1 and the tokens c0..c1. */
  ghost predicate TileHolds(c: Call, r0: int, r1: int, c0: int, c1: int, g: Mat)
    requires c.Valid()
  {
    forall i, j :: r0 <= i < r1 && c0 <= j < c1 ==> g(i, j) == c.G()(i, j)
  }

  lemma HiddenAdvances(c: Call, r0: int, r1: int, c0: nat, c1: int, g: Mat, acc: Option<Mat>)
    requires c.Valid() && c0 <= c1 && TileHolds(c, r0, r1, c0, c1, g) && HiddenHolds(c, r0, r1, c0, acc)
    ensures HiddenHolds(c, r0, r1, c1, Some(AddTo(acc, HiddenPart(g, c.w, c0, c1))))
  {
    hide Sum, Call.G, Combine;
    forall i, x | r0 <= i < r1
      ensures OrZero(Some(AddTo(acc, HiddenPart(g, c.w, c0, c1))))(i, x) == Combine(c1, Sums.Row(c.G(), i), c.w)(x)
    {
      var f := Times(Sums.Row(c.G(), i), Col(c.w, x));
      CombineAt(c0, Sums.Row(c.G(), i), c.w, x);
      CombineAt(c1, Sums.Row(c.G(), i), c.w, x);
      SumSplit(0, c0, c1, f);
      forall j | c0 <= j < c1
        ensures f(j) == Times(Sums.Row(g, i), Col(c.w, x))(j)
      {
        assert g(i, j) == c.G()(i, j);
      }
      SumEqual(c0, c1, f, Times(Sums.Row(g, i), Col(c.w, x)));
      assert OrZero(acc)(i, x) == Combine(c0, Sums.Row(c.G(), i), c.w)(x);
      assert OrZero(Some(AddTo(acc, HiddenPart(g, c.w, c0, c1))))(i, x)
          == OrZero(acc)(i, x) + HiddenPart(g, c.w, c0, c1)(i, x);
    }
  }

  lemma WeightAdvances(c: Call, r0: nat, r1: int, c0: int, c1: int, g: Mat, acc: Option<Mat>)
    requires c.Valid() && r0 <= r1 && TileHolds(c, r0, r1, c0, c1, g) && WeightHolds(c, c0, c1, r0, acc)
    ensures WeightHolds(c, c0, c1, r1, Some(AddTo(acc, WeightPart(g, c.h, r0, r1))))
  {
    hide Sum, Call.G, Combine;
    forall j, x | c0 <= j < c1
      ensures OrZero(Some(AddTo(acc, WeightPart(g, c.h, r0, r1))))(j, x) == Combine(r1, Col(c.G(), j), c.h)(x)
    {
      var f := Times(Col(c.G(), j), Col(c.h, x));
      CombineAt(r0, Col(c.G(), j), c.h, x);
      CombineAt(r1, Col(c.G(), j), c.h, x);
      SumSplit(0, r0, r1, f);
      forall i | r0 <= i < r1
        ensures f(i) == Times(Col(g, j), Col(c.h, x))(i)
      {
        assert g(i, j) == c.G()(i, j);
      }
      SumEqual(r0, r1, f, Times(Col(g, j), Col(c.h, x)));
      assert OrZero(acc)(j, x) == Combine(r0, Col(c.G(), j), c.h)(x);
      assert OrZero(Some(AddTo(acc, WeightPart(g, c.h, r0, r1))))(j, x)
          == OrZero(acc)(j, x) + WeightPart(g, c.h, r0, r1)(j, x);
    }
  }

  /** `concatenate`: the rows lo..hi from a block. */
  function Join(before: Mat, lo: int, hi: int, block: Mat): Mat {
    (i, x) => if lo <= i < hi then block(i, x) else before(i, x)
  }

  /** Each chunk's rows of the weight's gradient hold `upto` rows of the hidden states. */
  ghost predicate ChunksHold(c: Call, chunks: seq<(int, int)>, lo: int, hi: int, upto: int, gw: seq<Option<Mat>>)
    requires c.Valid()
  {
    |gw| == |chunks| && forall k :: 0 <= lo <= k < hi <= |chunks| ==>
      WeightHolds(c, chunks[k].0, chunks[k].1, upto, gw[k])
  }

  /** A block of rows over every chunk: its gradient of the hidden states, and its share of each
      chunk's rows of the weight's. */
  method BackwardRows(c: Call, outs: seq<Outputs>, chunks: seq<(int, int)>, r0: nat, r1: int, gw: seq<Option<Mat>>)
    returns (gh: Option<Mat>, newGw: seq<Option<Mat>>)
    requires c.Valid() && |outs| == c.Rows() && forall i :: 0 <= i < |outs| ==> c.Finished(i, outs[i])
    requires Partition(chunks, 0, c.v.vocab, c.v.chunk) && r0 < r1 <= c.Rows()
    requires ChunksHold(c, chunks, 0, |chunks|, r0, gw)
    ensures ChunksHold(c, chunks, 0, |chunks|, r1, newGw)
    ensures HiddenHolds(c, r0, r1, c.v.vocab, gh)
  {
    hide HiddenHolds, WeightHolds, AddTo, HiddenPart, WeightPart, ChunkGradient, Call.Finished, Call.G, Call.Coef;
    gh, newGw := None, gw;
    HiddenStarts(c, r0, r1);
    for k := 0 to |chunks|
      invariant ChunksHold(c, chunks, 0, k, r1, newGw)
      invariant ChunksHold(c, chunks, k, |chunks|, r0, newGw)
      invariant HiddenHolds(c, r0, r1, if k == 0 then 0 else chunks[k - 1].1, gh)
    {
      var (c0, c1) := chunks[k];
      assert c0 == if k == 0 then 0 else chunks[k - 1].1;
      ChunkGradientExact(c, outs, c0, c1);
      var g := ChunkGradient(c, outs, c0, c1);
      HiddenAdvances(c, r0, r1, c0, c1, g, gh);
      WeightAdvances(c, r0, r1, c0, c1, g, newGw[k]);
      gh := Some(AddTo(gh, HiddenPart(g, c.w, c0, c1)));
      newGw := newGw[k := Some(AddTo(newGw[k], WeightPart(g, c.h, r0, r1)))];
    }
  }

  /** A finished row reports the contract's results. */
  lemma FinishedReports(c: Call, i: int, out: Outputs)
    requires c.Valid() && 0 <= i < c.Rows() && c.Finished(i, out)
    ensures c.Reports(i, out)
  {
    hide Holds, LossForward, LossOf, LogprobOf, EntropyOf;
    var st: Part, zt :| st.s > 0.0 && Holds(c.RowAt(i), st, Before(c.v.vocab))
      && zt == TargetLogit(c.RowAt(i), c.v.vocab)
      && out == LossForward(c.e, c.o, st, zt, c.v.valid[i], c.counted(i));
    RowAtIs(c, i);
    ForwardIsContract(c.RowAt(i), c.o, st, zt, c.counted(i));
  }

  /** The forward pass: the blocks of rows in turn, every row's pass over the vocabulary and its
      outputs. */
  method Forward(c: Call, groups: nat, beyond: (int, int) -> Part) returns (outs: seq<Outputs>)
    requires c.Valid() && groups > 0
    ensures |outs| == c.Rows() && forall i :: 0 <= i < |outs| ==> c.Finished(i, outs[i]) && c.Reports(i, outs[i])
  {
    hide Call.Finished, Call.Reports, Holds, LossForward;
    var blocks := c.v.blocks;
    ghost var step :| Partition(blocks, 0, c.Rows(), step);
    outs := [];
    for b := 0 to |blocks|
      invariant |outs| == if b == 0 then 0 else blocks[b - 1].1
      invariant |outs| <= c.Rows()
      invariant forall i :: 0 <= i < |outs| ==> c.Finished(i, outs[i]) && c.Reports(i, outs[i])
    {
      assert blocks[b].0 == |outs|;
      var upto := blocks[b].1;
      while |outs| < upto
        invariant |outs| <= upto <= c.Rows()
        invariant forall i :: 0 <= i < |outs| ==> c.Finished(i, outs[i]) && c.Reports(i, outs[i])
      {
        var out := ForwardRow(c, |outs|, groups, beyond);
        FinishedReports(c, |outs|, out);
        outs := outs + [out];
      }
    }
  }

  /** A row: its pass over the vocabulary, then its outputs. */
  method ForwardRow(c: Call, i: nat, groups: nat, beyond: (int, int) -> Part) returns (out: Outputs)
    requires c.Valid() && groups > 0 && i < c.Rows()
    ensures c.Finished(i, out)
  {
    hide Holds, LossForward;
    var st, zt := Pass(c.v, c.e, i, c.Logits(i), groups, beyond);
    RowAtIs(c, i);
    RowIsHanded(c, i);
    SameHolds(RowOf(c.v, c.e, i, c.Logits(i)), c.RowAt(i), st, Before(c.v.vocab));
    PassGivesContract(c.RowAt(i), st, zt);
    out := LossForward(c.e, c.o, st, zt, c.v.valid[i], c.counted(i));
  }

  /** The gradient pass: whatever the blocks of rows and the chunks of tokens, G W and G^T H. */
  method Backward(c: Call, outs: seq<Outputs>) returns (gradHidden: Mat, gradWeight: Mat)
    requires c.Valid() && |outs| == c.Rows() && forall i :: 0 <= i < |outs| ==> c.Finished(i, outs[i])
    ensures forall i, x :: 0 <= i < c.Rows() ==> gradHidden(i, x) == Combine(c.v.vocab, Sums.Row(c.G(), i), c.w)(x)
    ensures forall j, x :: 0 <= j < c.v.vocab ==> gradWeight(j, x) == Combine(c.Rows(), Col(c.G(), j), c.h)(x)
  {
    hide HiddenHolds, WeightHolds, Call.Finished, Call.G, Combine;
    var chunks, blocks := c.v.ChunkList(), c.v.blocks;
    ghost var step :| Partition(blocks, 0, c.Rows(), step);
    var gw: seq<Option<Mat>> := seq(|chunks|, _ => None);
    forall k | 0 <= k < |chunks|
      ensures WeightHolds(c, chunks[k].0, chunks[k].1, 0, gw[k])
    {
      WeightStarts(c, chunks[k].0, chunks[k].1);
    }
    gradHidden, gradWeight := (i, x) => 0.0, (j, x) => 0.0;
    for b := 0 to |blocks|
      invariant ChunksHold(c, chunks, 0, |chunks|, if b == 0 then 0 else blocks[b - 1].1, gw)
      invariant forall i, x :: 0 <= i < (if b == 0 then 0 else blocks[b - 1].1) ==>
                  gradHidden(i, x) == Combine(c.v.vocab, Sums.Row(c.G(), i), c.w)(x)
    {
      assert blocks[b].0 == if b == 0 then 0 else blocks[b - 1].1;
      var gh, newGw := BackwardRows(c, outs, chunks, blocks[b].0, blocks[b].1, gw);
      HiddenBlock(c, blocks[b].0, blocks[b].1, gh);
      gradHidden, gw := Join(gradHidden, blocks[b].0, blocks[b].1, OrZero(gh)), newGw;
    }
    gradWeight := JoinChunks(c, chunks, c.Rows(), gw);
  }

  lemma HiddenBlock(c: Call, r0: int, r1: int, gh: Option<Mat>)
    requires c.Valid() && HiddenHolds(c, r0, r1, c.v.vocab, gh)
    ensures forall i, x :: r0 <= i < r1 ==> OrZero(gh)(i, x) == Combine(c.v.vocab, Sums.Row(c.G(), i), c.w)(x)
  {
  }

  /** The chunks' rows joined. */
  method JoinChunks(c: Call, chunks: seq<(int, int)>, upto: int, gw: seq<Option<Mat>>) returns (grad: Mat)
    requires c.Valid() && Partition(chunks, 0, c.v.vocab, c.v.chunk) && ChunksHold(c, chunks, 0, |chunks|, upto, gw)
    ensures forall j, x :: 0 <= j < c.v.vocab ==> grad(j, x) == Combine(upto, Col(c.G(), j), c.h)(x)
  {
    hide Call.G, Combine;
    grad := (j, x) => 0.0;
    for k := 0 to |chunks|
      invariant forall j, x :: 0 <= j < (if k == 0 then 0 else chunks[k - 1].1) ==>
                  grad(j, x) == Combine(upto, Col(c.G(), j), c.h)(x)
    {
      assert chunks[k].0 == if k == 0 then 0 else chunks[k - 1].1;
      assert WeightHolds(c, chunks[k].0, chunks[k].1, upto, gw[k]);
      grad := Join(grad, chunks[k].0, chunks[k].1, OrZero(gw[k]));
    }
  }

  // ----- the adjoint identity of the call -----

  /** Row i's logits, the hidden states moving along ht and the weight along wt. */
  function DualLogits(c: Call, ht: Mat, wt: Mat, i: int): int -> Dual {
    j => SumDual(0, c.d, DualProjection(c, ht, wt, i, j))
  }

  function DualProjection(c: Call, ht: Mat, wt: Mat, i: int, j: int): int -> Dual {
    x => Dual(c.w(j, x), wt(j, x)).Times(Dual(c.h(i, x), ht(i, x)))
  }

  function LogitsAlong(c: Call, ht: Mat, wt: Mat, i: int): Vec { Tangents(DualLogits(c, ht, wt, i)) }

  /** Their values are the row's, and their derivative w ht + wt h. */
  lemma DualLogitsAre(c: Call, ht: Mat, wt: Mat, i: int, j: int)
    requires c.Valid() && 0 <= i < c.Rows()
    ensures DualLogits(c, ht, wt, i)(j)
         == Dual(c.RowAt(i).z(j), Project(c.d, c.w, Sums.Row(ht, i))(j) + Project(c.d, wt, Sums.Row(c.h, i))(j))
  {
    hide Sum;
    var f := DualProjection(c, ht, wt, i, j);
    var moved, along := Times(Sums.Row(c.w, j), Sums.Row(ht, i)), Times(Sums.Row(wt, j), Sums.Row(c.h, i));
    forall x | 0 <= x < c.d
      ensures Values(f)(x) == c.LogitTerms(i, j)(x) && Tangents(f)(x) == moved(x) + along(x)
    {
      assert f(x) == Dual(c.w(j, x), wt(j, x)).Times(Dual(c.h(i, x), ht(i, x)));
    }
    SumEqual(0, c.d, Values(f), c.LogitTerms(i, j));
    SumAdd(0, c.d, moved, along, Tangents(f));
  }

  /** The upstream gradients of a row against the derivative of its results; none reaches an ignored row,
      and none the entropy unless it was asked for. */
  function ResultPairing(c: Call, i: int, zt: Vec): real
    requires 0 <= i < c.Rows() && |c.v.targets| == |c.v.valid| && c.o.classes > 0 && DualZ(c.RowAt(i), zt).v > 0.0
  {
    var r, g := c.RowAt(i), c.up(i);
    if !c.counted(i) then 0.0
    else
      g.loss * DualLoss(r, zt, c.o.eps, c.o.zLoss, c.o.classes).t + g.logprob * DualLogprob(r, zt).t
      + (if c.o.entropy then g.entropy * DualEntropy(r, zt).t else 0.0)
  }

  /** The upstream gradients of all rows against the derivative of their results. */
  function Pairings(c: Call, ht: Mat, wt: Mat): Vec
    requires |c.v.targets| == |c.v.valid| && c.o.classes > 0
  {
    i =>
      if 0 <= i < c.Rows() && DualZ(c.RowAt(i), LogitsAlong(c, ht, wt, i)).v > 0.0
      then ResultPairing(c, i, LogitsAlong(c, ht, wt, i)) else 0.0
  }

  lemma RowInParts(c: Call, ht: Mat, wt: Mat, i: int)
    requires c.Valid() && 0 <= i < c.Rows()
    ensures DualZ(c.RowAt(i), LogitsAlong(c, ht, wt, i)).v > 0.0
    ensures Pairings(c, ht, wt)(i)
         == Dot(c.d, Sums.Row(ht, i), Combine(c.v.vocab, Sums.Row(c.G(), i), c.w))
            + RowProducts(c.v.vocab, c.d, c.G(), c.h, wt)(i)
  {
    hide Sum, Dot, LogitGradient, DualZ, Combine, Project, DualLogits, DualLoss, DualLogprob, DualEntropy;
    var r := c.RowAt(i);
    RowAtIs(c, i);
    var g := Sums.Row(c.G(), i);
    var zt := LogitsAlong(c, ht, wt, i);
    RowAdjoint(r, c.o, c.UpAt(i), zt);
    forall j | 0 <= j < c.v.vocab
      ensures zt(j) == Project(c.d, c.w, Sums.Row(ht, i))(j) + Project(c.d, wt, Sums.Row(c.h, i))(j)
    {
      DualLogitsAre(c, ht, wt, i, j);
    }
    DotSymmetric(c.v.vocab, zt, LogitGradient(r, c.o, c.UpAt(i)));
    DotEqual(c.v.vocab, LogitGradient(r, c.o, c.UpAt(i)), zt, g, zt);
    DotPlus(c.v.vocab, g, Project(c.d, c.w, Sums.Row(ht, i)), Project(c.d, wt, Sums.Row(c.h, i)), zt);
    Adjoint(c.v.vocab, c.d, g, c.w, Sums.Row(ht, i));
  }

  /** The gradients of the hidden states and of the weight are the adjoint of the whole call: the
      upstream gradients against the results' derivative along any direction are the gradients against
      the direction. */
  lemma CallAdjoint(c: Call, ht: Mat, wt: Mat, gradHidden: Mat, gradWeight: Mat)
    requires c.Valid()
    requires forall i, x :: 0 <= i < c.Rows() ==> gradHidden(i, x) == Combine(c.v.vocab, Sums.Row(c.G(), i), c.w)(x)
    requires forall j, x :: 0 <= j < c.v.vocab ==> gradWeight(j, x) == Combine(c.Rows(), Col(c.G(), j), c.h)(x)
    ensures forall i :: 0 <= i < c.Rows() ==> DualZ(c.RowAt(i), LogitsAlong(c, ht, wt, i)).v > 0.0
    ensures Sum(0, c.Rows(), Pairings(c, ht, wt))
         == Inner(c.Rows(), c.d, ht, gradHidden) + Inner(c.v.vocab, c.d, wt, gradWeight)
  {
    hide Sum, Dot, Call.G, Combine, Pairings, RowProducts, ColProducts, DualZ, LogitsAlong, Call.RowAt;
    var n, t := c.Rows(), c.v.vocab;
    forall i | 0 <= i < n
      ensures DualZ(c.RowAt(i), LogitsAlong(c, ht, wt, i)).v > 0.0
      ensures Pairings(c, ht, wt)(i) == RowPairs(c.d, ht, gradHidden)(i) + RowProducts(t, c.d, c.G(), c.h, wt)(i)
    {
      RowInParts(c, ht, wt, i);
      DotEqual(c.d, Sums.Row(ht, i), Combine(t, Sums.Row(c.G(), i), c.w), Sums.Row(ht, i), Sums.Row(gradHidden, i));
    }
    SumAdd(0, n, RowPairs(c.d, ht, gradHidden), RowProducts(t, c.d, c.G(), c.h, wt), Pairings(c, ht, wt));
    BilinearExchange(n, t, c.d, c.G(), c.h, wt);
    forall j | 0 <= j < t
      ensures ColProducts(n, c.d, c.G(), c.h, wt)(j) == RowPairs(c.d, wt, gradWeight)(j)
    {
      ColumnPair(c, wt, gradWeight, n, j);
    }
    SumEqual(0, t, ColProducts(n, c.d, c.G(), c.h, wt), RowPairs(c.d, wt, gradWeight));
  }

  /** An ignored row's hidden state gets no gradient, whatever flows in. */
  lemma IgnoredRow(c: Call, gradHidden: Mat, i: int, x: int)
    requires c.Valid() && 0 <= i < c.Rows() && !c.counted(i)
    requires gradHidden(i, x) == Combine(c.v.vocab, Sums.Row(c.G(), i), c.w)(x)
    ensures gradHidden(i, x) == 0.0
  {
    hide Sum, Combine, Call.RowAt, LogitGradient;
    var g := Sums.Row(c.G(), i);
    forall j | 0 <= j < c.v.vocab
      ensures Times(g, Col(c.w, x))(j) == 0.0
    {
      NoGradient(c.RowAt(i), c.o, j);
      assert c.UpAt(i) == Upstream(0.0, 0.0, 0.0);
      assert c.G()(i, j) == 0.0;
    }
    CombineAt(c.v.vocab, g, c.w, x);
    SumZero(0, c.v.vocab, Times(g, Col(c.w, x)));
  }

  lemma NoGradient(r: TokenRow, o: Options, j: int)
    requires o.classes > 0
    ensures LogitGradient(r, o, Upstream(0.0, 0.0, 0.0))(j) == 0.0
  {
    hide Z, Probability, LogProbability, EntropyOf;
    var p := Probability(r, j);
    assert 0.0 * (1.0 + 2.0 * o.zLoss * r.e.ln(Z(r))) - 0.0 - 0.0 * EntropyOf(r) == 0.0;
    assert Shared(r, o, Upstream(0.0, 0.0, 0.0), j) == p * 0.0 - p * LogProbability(r, j) * 0.0 + 0.0;
  }

  lemma ColumnPair(c: Call, wt: Mat, gradWeight: Mat, n: int, j: int)
    requires c.Valid() && forall x :: gradWeight(j, x) == Combine(n, Col(c.G(), j), c.h)(x)
    ensures ColProducts(n, c.d, c.G(), c.h, wt)(j) == RowPairs(c.d, wt, gradWeight)(j)
  {
    hide Sum, Dot, Call.G, Combine;
    DotEqual(c.d, Sums.Row(wt, j), Combine(n, Col(c.G(), j), c.h), Sums.Row(wt, j), Sums.Row(gradWeight, j));
  }
}
