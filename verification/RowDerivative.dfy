/** The contract's log-sum-exp, log-probability, entropy and loss of a row over dual numbers, and the
    derivatives they come to. */
module RowDerivative {
  import opened Sums
  import opened Vectors
  import opened Analysis
  import opened LogprobState

  /** The row's logits moving along zt. */
  function Logits(r: TokenRow, zt: Vec): int -> Dual { j => Dual(r.z(j), zt(j)) }

  function DualWeights(r: TokenRow, zt: Vec): int -> Dual {
    j => if r.masked(j) then Const(0.0) else Logits(r, zt)(j).Exp(r.e)
  }

  function DualZ(r: TokenRow, zt: Vec): Dual { SumDual(0, r.vocab, DualWeights(r, zt)) }

  function DualLse(r: TokenRow, zt: Vec): Dual
    requires DualZ(r, zt).v > 0.0
  {
    DualZ(r, zt).Ln(r.e)
  }

  /** The target's logit; a constant where the row has no valid target. */
  function DualTarget(r: TokenRow, zt: Vec): Dual {
    if r.target < 0 then Const(0.0) else Logits(r, zt)(r.target)
  }

  function DualLogprob(r: TokenRow, zt: Vec): Dual
    requires DualZ(r, zt).v > 0.0
  {
    DualTarget(r, zt).Minus(DualLse(r, zt))
  }

  /** p log p of each unmasked token. */
  function DualEntropyTerms(r: TokenRow, zt: Vec): int -> Dual
    requires DualZ(r, zt).v > 0.0
  {
    j =>
      if r.masked(j) then Const(0.0) else
      var logp := Logits(r, zt)(j).Minus(DualLse(r, zt));
      logp.Exp(r.e).Times(logp)
  }

  function DualEntropy(r: TokenRow, zt: Vec): Dual
    requires DualZ(r, zt).v > 0.0
  {
    Const(0.0).Minus(SumDual(0, r.vocab, DualEntropyTerms(r, zt)))
  }

  function DualLogitTerms(r: TokenRow, zt: Vec): int -> Dual {
    j => if r.masked(j) then Const(0.0) else Logits(r, zt)(j)
  }

  /** (1 - eps) (lse - z_t) + eps (lse - mean z) + zLoss lse^2. */
  function DualLoss(r: TokenRow, zt: Vec, eps: real, zLoss: real, classes: nat): Dual
    requires DualZ(r, zt).v > 0.0 && classes > 0
  {
    var lse := DualLse(r, zt);
    Const(1.0 - eps).Times(lse.Minus(DualTarget(r, zt)))
      .Plus(Const(eps).Times(lse.Minus(SumDual(0, r.vocab, DualLogitTerms(r, zt)).Over(Const(classes as real)))))
      .Plus(Const(zLoss).Times(lse.Times(lse)))
  }

  // ----- the derivatives -----

  function Probabilities(r: TokenRow): Vec { j => Probability(r, j) }

  /** sum p zt: the derivative of the log-sum-exp. */
  function LseTangent(r: TokenRow, zt: Vec): real { Dot(r.vocab, Probabilities(r), zt) }

  lemma ProbabilityIs(r: TokenRow, j: int)
    requires r.e.Laws() && Z(r) > 0.0
    ensures Probability(r, j) == (1.0 / Z(r)) * Within(r, Weight, All())(j)
  {
    hide Z, Within, Adds;
    TermsOf(r, j);
    if !r.masked(j) {
      ExpOfDifference(r.e, r.z(j), Z(r));
      Ratio(r.e.exp(r.z(j)), Z(r));
    }
  }

  lemma ProbabilitiesSum(r: TokenRow)
    requires r.e.Laws() && SomeToken(r)
    ensures Sum(0, r.vocab, Probabilities(r)) == 1.0
  {
    hide Sum, Within, Probability;
    ZIsPositive(r);
    forall j | 0 <= j < r.vocab
      ensures Probabilities(r)(j) == (1.0 / Z(r)) * Within(r, Weight, All())(j)
    {
      ProbabilityIs(r, j);
    }
    SumScale(0, r.vocab, 1.0 / Z(r), Within(r, Weight, All()), Probabilities(r));
    Ratio(Z(r), Z(r));
  }

  lemma DualWeightIs(r: TokenRow, zt: Vec, j: int)
    ensures Values(DualWeights(r, zt))(j) == Within(r, Weight, All())(j)
    ensures Tangents(DualWeights(r, zt))(j) == Times(Within(r, Weight, All()), zt)(j)
  {
    hide Within;
    TermsOf(r, j);
  }

  lemma DualZIs(r: TokenRow, zt: Vec)
    ensures DualZ(r, zt) == Dual(Z(r), Dot(r.vocab, Within(r, Weight, All()), zt))
  {
    hide Sum, Within;
    forall j | 0 <= j < r.vocab
      ensures Values(DualWeights(r, zt))(j) == Within(r, Weight, All())(j)
      ensures Tangents(DualWeights(r, zt))(j) == Times(Within(r, Weight, All()), zt)(j)
    {
      DualWeightIs(r, zt, j);
    }
    SumEqual(0, r.vocab, Values(DualWeights(r, zt)), Within(r, Weight, All()));
    SumEqual(0, r.vocab, Tangents(DualWeights(r, zt)), Times(Within(r, Weight, All()), zt));
  }

  lemma DualLseIs(r: TokenRow, zt: Vec)
    requires r.e.Laws() && SomeToken(r)
    ensures DualZ(r, zt).v > 0.0
    ensures DualLse(r, zt) == Dual(r.e.ln(Z(r)), LseTangent(r, zt))
  {
    hide Sum, Within, Z, Probability, DualZ;
    ZIsPositive(r);
    DualZIs(r, zt);
    var w := Within(r, Weight, All());
    forall j | 0 <= j < r.vocab
      ensures Times(Probabilities(r), zt)(j) == (1.0 / Z(r)) * Times(w, zt)(j)
    {
      ProbabilityIs(r, j);
      ThreeFactors(1.0 / Z(r), w(j), zt(j));
    }
    SumScale(0, r.vocab, 1.0 / Z(r), Times(w, zt), Times(Probabilities(r), zt));
    Ratio(Dot(r.vocab, w, zt), Z(r));
  }

  /** p (log p + H), of which the entropy's derivative is minus the sum against zt. */
  function EntropyGradient(r: TokenRow): Vec {
    j => if r.masked(j) then 0.0 else Probability(r, j) * (LogProbability(r, j) + EntropyOf(r))
  }

  lemma DualEntropyTermIs(r: TokenRow, zt: Vec, j: int)
    requires r.e.Laws() && SomeToken(r)
    ensures DualZ(r, zt).v > 0.0
    ensures Values(DualEntropyTerms(r, zt))(j) == EntropyTerms(r)(j)
    ensures Tangents(DualEntropyTerms(r, zt))(j)
         == Times(EntropyGradient(r), zt)(j)
            + ((1.0 - EntropyOf(r)) * Times(Probabilities(r), zt)(j)
               - LseTangent(r, zt) * (EntropyTerms(r)(j) + Probabilities(r)(j)))
  {
    hide Z, DualZ, DualLse, EntropyOf, LseTangent;
    DualLseIs(r, zt);
    if !r.masked(j) {
      EntropyProduct(Probability(r, j), LogProbability(r, j), zt(j), LseTangent(r, zt), EntropyOf(r));
    }
  }

  lemma EntropyProduct(p: real, logp: real, zt: real, l: real, h: real)
    ensures (p * (zt - l)) * logp + p * (zt - l) == (p * (logp + h)) * zt + ((1.0 - h) * (p * zt) - l * (p * logp + p))
  {
  }

  lemma DualEntropyIs(r: TokenRow, zt: Vec)
    requires r.e.Laws() && SomeToken(r)
    ensures DualZ(r, zt).v > 0.0
    ensures DualEntropy(r, zt) == Dual(EntropyOf(r), -Dot(r.vocab, EntropyGradient(r), zt))
  {
    hide Sum, Z, DualZ, EntropyTerms, Probabilities, DualEntropyTerms, EntropyGradient, LseTangent, EntropyOf;
    DualLseIs(r, zt);
    var l, h := LseTangent(r, zt), EntropyOf(r);
    forall j | 0 <= j < r.vocab
      ensures Values(DualEntropyTerms(r, zt))(j) == EntropyTerms(r)(j)
      ensures Tangents(DualEntropyTerms(r, zt))(j)
           == Times(EntropyGradient(r), zt)(j)
              + ((1.0 - h) * Times(Probabilities(r), zt)(j) - l * (EntropyTerms(r)(j) + Probabilities(r)(j)))
    {
      DualEntropyTermIs(r, zt, j);
    }
    SumEqual(0, r.vocab, Values(DualEntropyTerms(r, zt)), EntropyTerms(r));
    EntropySums(r.vocab, Times(EntropyGradient(r), zt), 1.0 - h, Times(Probabilities(r), zt), l, EntropyTerms(r),
                Probabilities(r), Tangents(DualEntropyTerms(r, zt)));
    ProbabilitiesSum(r);
    LseTangentIs(r, zt);
    EntropyIs(r);
    assert (1.0 - h) * l - l * (-h + 1.0) == 0.0;
    DotIs(r.vocab, EntropyGradient(r), zt);
  }

  lemma EntropyIs(r: TokenRow)
    ensures EntropyOf(r) == -Sum(0, r.vocab, EntropyTerms(r))
  {
  }

  lemma EntropySums(n: int, a: Vec, f: real, b: Vec, l: real, terms: Vec, p: Vec, all: Vec)
    requires forall j :: 0 <= j < n ==> all(j) == a(j) + (f * b(j) - l * (terms(j) + p(j)))
    ensures Sum(0, n, all) == Sum(0, n, a) + (f * Sum(0, n, b) - l * (Sum(0, n, terms) + Sum(0, n, p)))
  {
    hide Sum;
    var both: Vec := j => terms(j) + p(j);
    var rest: Vec := j => f * b(j) + -l * both(j);
    SumAdd(0, n, a, rest, all);
    SumLinear(0, n, f, b, -l, both, rest);
    SumAdd(0, n, terms, p, both);
  }

  lemma LseTangentIs(r: TokenRow, zt: Vec)
    ensures LseTangent(r, zt) == Sum(0, r.vocab, Times(Probabilities(r), zt))
  {
  }

  /** sum of the unmasked logits' derivatives. */
  function LogitsTangent(r: TokenRow, zt: Vec): real { Sum(0, r.vocab, Tangents(DualLogitTerms(r, zt))) }

  function TargetTangent(r: TokenRow, zt: Vec): real { if r.target < 0 then 0.0 else zt(r.target) }

  /** The loss's formula, the target's term left out where the target is not found: the contract's loss
      of a row whose target is. */
  function LossOf(r: TokenRow, eps: real, zLoss: real, classes: nat): real
    requires classes > 0
  {
    var lse := r.e.ln(Z(r));
    (1.0 - eps) * (lse - (if r.target < 0 then 0.0 else r.z(r.target)))
      + eps * (lse - Total(r, Logit, All()) / (classes as real)) + zLoss * (lse * lse)
  }

  lemma DualLossIs(r: TokenRow, zt: Vec, eps: real, zLoss: real, classes: nat)
    requires r.e.Laws() && SomeToken(r) && classes > 0
    ensures DualZ(r, zt).v > 0.0
    ensures DualLoss(r, zt, eps, zLoss, classes).v == LossOf(r, eps, zLoss, classes)
    ensures DualLoss(r, zt, eps, zLoss, classes).t
         == (1.0 + 2.0 * zLoss * r.e.ln(Z(r))) * LseTangent(r, zt) - (1.0 - eps) * TargetTangent(r, zt)
            - eps * (LogitsTangent(r, zt) / (classes as real))
  {
    hide Z, DualZ, DualLse, LseTangent, LogitsTangent, Total, DualTarget, DualLogitTerms, SumDual, Const, Dual.Times,
         Dual.Plus, Dual.Minus, Dual.Over, LossOf;
    DualLseIs(r, zt);
    DualMean(r, zt, classes);
    DualTargetIs(r, zt);
    var lse, target := DualLse(r, zt), DualTarget(r, zt);
    var lv, lt := r.e.ln(Z(r)), LseTangent(r, zt);
    var tv, tt := if r.target < 0 then 0.0 else r.z(r.target), TargetTangent(r, zt);
    var mv, mt := Total(r, Logit, All()) / (classes as real), LogitsTangent(r, zt) / (classes as real);
    LossTangent(eps, zLoss, lse, target, Dual(mv, mt), lv, lt, tv, tt, mv, mt);
    assert DualLoss(r, zt, eps, zLoss, classes)
        == Const(1.0 - eps).Times(lse.Minus(target)).Plus(Const(eps).Times(lse.Minus(Dual(mv, mt))))
             .Plus(Const(zLoss).Times(lse.Times(lse)));
    LossOfIs(r, eps, zLoss, classes, lv, tv, mv);
  }

  lemma LossOfIs(r: TokenRow, eps: real, zLoss: real, classes: nat, lse: real, target: real, mean: real)
    requires classes > 0 && lse == r.e.ln(Z(r)) && target == (if r.target < 0 then 0.0 else r.z(r.target))
    requires mean == Total(r, Logit, All()) / (classes as real)
    ensures LossOf(r, eps, zLoss, classes) == (1.0 - eps) * (lse - target) + eps * (lse - mean) + zLoss * (lse * lse)
  {
    hide Z, Total;
  }

  lemma DualTargetIs(r: TokenRow, zt: Vec)
    ensures DualTarget(r, zt) == Dual(if r.target < 0 then 0.0 else r.z(r.target), TargetTangent(r, zt))
  {
  }

  lemma DualMean(r: TokenRow, zt: Vec, classes: nat)
    requires classes > 0
    ensures SumDual(0, r.vocab, DualLogitTerms(r, zt)).Over(Const(classes as real))
         == Dual(Total(r, Logit, All()) / (classes as real), LogitsTangent(r, zt) / (classes as real))
  {
    hide Sum, Within;
    forall j | 0 <= j < r.vocab
      ensures Values(DualLogitTerms(r, zt))(j) == Within(r, Logit, All())(j)
    {
      TermsOf(r, j);
    }
    SumEqual(0, r.vocab, Values(DualLogitTerms(r, zt)), Within(r, Logit, All()));
    MeanTangent(LogitsTangent(r, zt), classes as real, Total(r, Logit, All()));
  }

  lemma MeanTangent(mt: real, k: real, m: real)
    requires k > 0.0
    ensures (mt * k - m * 0.0) / (k * k) == mt / k
  {
    QuotientOfScaled(mt, k, k);
  }

  lemma LossTangent(eps: real, zLoss: real, lse: Dual, target: Dual, mean: Dual, lv: real, lt: real, tv: real, tt: real,
                    mv: real, mt: real)
    requires lse == Dual(lv, lt) && target == Dual(tv, tt) && mean == Dual(mv, mt)
    ensures Const(1.0 - eps).Times(lse.Minus(target)).Plus(Const(eps).Times(lse.Minus(mean)))
              .Plus(Const(zLoss).Times(lse.Times(lse)))
         == Dual((1.0 - eps) * (lv - tv) + eps * (lv - mv) + zLoss * (lv * lv),
                 (1.0 + 2.0 * zLoss * lv) * lt - (1.0 - eps) * tt - eps * mt)
  {
  }
}
