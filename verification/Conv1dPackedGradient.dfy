/** The gradients of packed sequences: each sequence's own for its steps and its state, the weight's
    and the bias's added over the sequences; and the proof that they are the adjoint of the packed
    call, final states and all. */
module Conv1dPackedGradient {
  import opened Sums
  import opened Vectors
  import opened Analysis
  import opened Bounds
  import opened Conv1d
  import opened Conv1dBackward
  import opened Conv1dGradient
  import opened Conv1dPacked

  /** A direction in the packed inputs, every sequence's state, the taps and the bias. */
  datatype PackedDirection = PackedDirection(x: Vec, states: int -> Vec, weight: Vec, bias: real)

  /** The gradients of the outputs and of every sequence's final state of `len` steps. */
  datatype Upstream = Upstream(out: Vec, finals: int -> Vec, len: nat)

  predicate Starts(cu: seq<int>, s: int) { 0 <= s < |cu| - 1 && cu[s] <= cu[s + 1] }

  function PartAlong(d: PackedDirection, from: int): int -> Direction {
    s => Direction(u => d.x(from + u), d.states(s), d.weight, d.bias)
  }

  function PartOf(p: Packed, cu: seq<int>, s: int): Conv
    requires Starts(cu, s)
  {
    p.Part(s, cu[s], cu[s + 1])
  }

  /** The gradient of sequence s's history: its steps' and, before them, its state's. */
  function PartHistory(p: Packed, cu: seq<int>, up: Upstream, s: int): Vec
    requires p.e.Laws() && Starts(cu, s)
  {
    GradWithFinal(PartOf(p, cu, s), Later(up.out, cu[s]), up.finals(s), up.len)
  }

  /** Sequence s's gradient of tap j. */
  function WeightParts(p: Packed, cu: seq<int>, up: Upstream): Mat
    requires p.e.Laws()
  {
    (s, j) => if Starts(cu, s) then GradWeight(PartOf(p, cu, s), Later(up.out, cu[s]))(j) else 0.0
  }

  function BiasParts(p: Packed, cu: seq<int>, up: Upstream): Vec
    requires p.e.Laws()
  {
    s => if Starts(cu, s) then GradBias(PartOf(p, cu, s), Later(up.out, cu[s])) else 0.0
  }

  /** How the history of sequence s, whose first step is `from`, moves along a direction. */
  function PackedAlong(p: Packed, d: PackedDirection, s: int, from: int, v: int): real {
    if v >= from then d.x(v) else if v >= from - p.w then d.states(s)(v - (from - p.w)) else 0.0
  }

  function PackedDualTaps(p: Packed, d: PackedDirection, s: int, from: int, u: int): int -> Dual {
    j =>
      Dual(p.weight(j), d.weight(j))
        .Times(Dual(PackedHistory(p, s, from, u + 1 - p.k + j), PackedAlong(p, d, s, from, u + 1 - p.k + j)))
  }

  /** How step u's output moves. */
  function PackedTangents(p: Packed, d: PackedDirection, s: int, from: int): Vec
    requires p.e.Laws()
  {
    u => DualAct(p.e, p.silu, SumDual(0, p.k, PackedDualTaps(p, d, s, from, u)).Plus(Dual(p.bias, d.bias))).t
  }

  /** What the upstream gradients see of a direction, sequence by sequence. */
  function Pairings(p: Packed, cu: seq<int>, up: Upstream, d: PackedDirection): Vec
    requires p.e.Laws()
  {
    s => if Starts(cu, s)
         then Sum(cu[s], cu[s + 1], Times(up.out, PackedTangents(p, d, s, cu[s])))
              + Dot(up.len, up.finals(s), i => PackedAlong(p, d, s, cu[s], cu[s + 1] - up.len + i))
         else 0.0
  }

  lemma PackedAlongIs(p: Packed, d: PackedDirection, s: int, from: int, to: int, v: int)
    requires from <= to && v < to
    ensures HistoryAlong(p.Part(s, from, to), PartAlong(d, from)(s))(v - from) == PackedAlong(p, d, s, from, v)
  {
    assert p.w + (v - from) == v - (from - p.w);
  }

  lemma PackedTapIs(p: Packed, d: PackedDirection, s: int, from: int, to: int, u: int, j: int)
    requires from <= u < to && j < p.k
    ensures DualTaps(p.Part(s, from, to), PartAlong(d, from)(s), u - from)(j) == PackedDualTaps(p, d, s, from, u)(j)
  {
    hide PackedHistory, PackedAlong, Conv.H, HistoryAlong;
    var part, along, v := p.Part(s, from, to), PartAlong(d, from)(s), u + 1 - p.k + j;
    PackedHistoryIs(p, s, from, to, v);
    PackedAlongIs(p, d, s, from, to, v);
    assert u - from - (p.k - 1) + j == v - from;
    assert part.k == p.k && part.weight == p.weight && along.weight == d.weight;
  }

  lemma PackedTangentIs(p: Packed, d: PackedDirection, s: int, from: int, to: int, u: int)
    requires p.Valid() && from <= u < to
    ensures OutTangents(p.Part(s, from, to), PartAlong(d, from)(s))(u - from) == PackedTangents(p, d, s, from)(u)
  {
    hide SumDual, DualAct, DualTaps, PackedDualTaps;
    var part, along := p.Part(s, from, to), PartAlong(d, from)(s);
    forall j | 0 <= j < p.k
      ensures DualTaps(part, along, u - from)(j) == PackedDualTaps(p, d, s, from, u)(j)
    {
      PackedTapIs(p, d, s, from, to, u, j);
    }
    SumDualEqual(0, p.k, DualTaps(part, along, u - from), PackedDualTaps(p, d, s, from, u));
  }

  /** A sequence's own pairing, by the batch's steps. */
  lemma PairingIs(p: Packed, cu: seq<int>, up: Upstream, d: PackedDirection, s: int)
    requires p.Valid() && Starts(cu, s)
    ensures Pairings(p, cu, up, d)(s)
         == Dot(cu[s + 1] - cu[s], Later(up.out, cu[s]), OutTangents(PartOf(p, cu, s), PartAlong(d, cu[s])(s)))
            + Dot(up.len, up.finals(s), FinalAlong(PartOf(p, cu, s), PartAlong(d, cu[s])(s), up.len))
  {
    hide Sum, OutTangents, PackedTangents, PackedAlong, HistoryAlong;
    var from, to := cu[s], cu[s + 1];
    var part, along := PartOf(p, cu, s), PartAlong(d, from)(s);
    var g, tangents := Later(up.out, from), OutTangents(part, along);
    forall u | 0 <= u < to - from
      ensures Times(g, tangents)(u) == Times(up.out, PackedTangents(p, d, s, from))(u + from)
    {
      PackedTangentIs(p, d, s, from, to, u + from);
      assert u + from - from == u;
    }
    SumShift(0, to - from, from, Times(up.out, PackedTangents(p, d, s, from)), Times(g, tangents));
    forall i | 0 <= i < up.len
      ensures FinalAlong(part, along, up.len)(i) == PackedAlong(p, d, s, from, to - up.len + i)
    {
      PackedAlongIs(p, d, s, from, to, to - up.len + i);
      assert part.t - up.len + i == to - up.len + i - from;
    }
    DotEqual(up.len, up.finals(s), FinalAlong(part, along, up.len), up.finals(s),
             i => PackedAlong(p, d, s, from, to - up.len + i));
  }

  function StatePairs(w: nat, dstates: int -> Vec, d: PackedDirection): Vec { s => Dot(w, dstates(s), d.states(s)) }

  function WeightPairs(p: Packed, cu: seq<int>, up: Upstream, d: PackedDirection): Vec
    requires p.e.Laws()
  {
    s => Dot(p.k, Row(WeightParts(p, cu, up), s), d.weight)
  }

  function StepPairs(cu: seq<int>, dx: Vec, d: PackedDirection): Vec {
    s => if Starts(cu, s) then Sum(cu[s], cu[s + 1], Times(dx, d.x)) else 0.0
  }

  /** Sequence s's steps and its state hold its own gradients. */
  ghost predicate PartDone(p: Packed, cu: seq<int>, up: Upstream, dx: Vec, dstates: int -> Vec, s: int)
    requires p.Valid()
  {
    && Starts(cu, s)
    && (forall u :: cu[s] <= u < cu[s + 1] ==> dx(u) == PartHistory(p, cu, up, s)(u - cu[s]))
    && (forall i :: 0 <= i < p.w ==> dstates(s)(i) == PartHistory(p, cu, up, s)(i - p.w))
  }

  function Moved(f: Vec, at: int): Vec { u => f(at + u) }

  /** One sequence's share. */
  lemma PartShare(p: Packed, cu: seq<int>, up: Upstream, d: PackedDirection, dx: Vec, dstates: int -> Vec, s: int)
    requires p.Valid() && PartDone(p, cu, up, dx, dstates, s)
    ensures Pairings(p, cu, up, d)(s)
         == StepPairs(cu, dx, d)(s) + StatePairs(p.w, dstates, d)(s) + WeightPairs(p, cu, up, d)(s)
            + d.bias * BiasParts(p, cu, up)(s)
  {
    hide Sum, Dot, GradWithFinal, OutTangents, FinalAlong, GradWeight, GradBias, Conv.Out, Pairings, StepPairs,
         WeightPairs, BiasParts;
    var c, g, along := PartOf(p, cu, s), Later(up.out, cu[s]), PartAlong(d, cu[s])(s);
    PartHistoryIs(p, cu, up, dx, dstates, s);
    FinalAdjoint(c, along, g, up.finals(s), up.len, Moved(dx, cu[s]), dstates(s));
    StepsMoved(cu[s], cu[s + 1] - cu[s], dx, d.x, along.x);
    WeightShare(p, cu, up, d, s);
    PartIs(p, cu, up, d, dx, s);
    assert StatePairs(p.w, dstates, d)(s) == Dot(c.w, dstates(s), along.state);
  }

  lemma PartIs(p: Packed, cu: seq<int>, up: Upstream, d: PackedDirection, dx: Vec, s: int)
    requires p.Valid() && Starts(cu, s)
    ensures var c, g, along := PartOf(p, cu, s), Later(up.out, cu[s]), PartAlong(d, cu[s])(s);
            && Pairings(p, cu, up, d)(s)
               == Dot(c.t, g, OutTangents(c, along)) + Dot(up.len, up.finals(s), FinalAlong(c, along, up.len))
            && StepPairs(cu, dx, d)(s) == Sum(cu[s], cu[s + 1], Times(dx, d.x))
            && BiasParts(p, cu, up)(s) == GradBias(c, g)
  {
    hide Sum, Dot, OutTangents, FinalAlong, GradBias, Pairings;
    PairingIs(p, cu, up, d, s);
  }

  lemma PartHistoryIs(p: Packed, cu: seq<int>, up: Upstream, dx: Vec, dstates: int -> Vec, s: int)
    requires p.Valid() && PartDone(p, cu, up, dx, dstates, s)
    ensures var c, g := PartOf(p, cu, s), Later(up.out, cu[s]);
            && (forall u :: 0 <= u < c.t ==> Moved(dx, cu[s])(u) == GradWithFinal(c, g, up.finals(s), up.len)(u))
            && (forall i :: 0 <= i < c.w ==> dstates(s)(i) == GradWithFinal(c, g, up.finals(s), up.len)(i - c.w))
  {
    hide GradWithFinal;
    var c, g := PartOf(p, cu, s), Later(up.out, cu[s]);
    forall u | 0 <= u < c.t
      ensures Moved(dx, cu[s])(u) == GradWithFinal(c, g, up.finals(s), up.len)(u)
    {
      assert dx(cu[s] + u) == PartHistory(p, cu, up, s)(cu[s] + u - cu[s]);
    }
  }

  lemma StepsMoved(at: int, n: nat, dx: Vec, x: Vec, along: Vec)
    requires forall u :: along(u) == x(at + u)
    ensures Dot(n, Moved(dx, at), along) == Sum(at, at + n, Times(dx, x))
  {
    hide Sum;
    SumShift(0, n, at, Times(dx, x), Times(Moved(dx, at), along));
  }

  lemma WeightShare(p: Packed, cu: seq<int>, up: Upstream, d: PackedDirection, s: int)
    requires p.Valid() && Starts(cu, s)
    ensures WeightPairs(p, cu, up, d)(s) == Dot(p.k, GradWeight(PartOf(p, cu, s), Later(up.out, cu[s])), d.weight)
  {
    hide Sum, GradWeight;
    var w := GradWeight(PartOf(p, cu, s), Later(up.out, cu[s]));
    SumEqual(0, p.k, Times(w, d.weight), Times(Row(WeightParts(p, cu, up), s), d.weight));
  }

  /** The taps' gradients against a direction, summed over the sequences, are the summed gradients'. */
  lemma WeightsAdd(p: Packed, cu: seq<int>, up: Upstream, d: PackedDirection, n: nat, dw: Vec)
    requires p.Valid() && forall j :: 0 <= j < p.k ==> dw(j) == Sum(0, n, Col(WeightParts(p, cu, up), j))
    ensures Sum(0, n, WeightPairs(p, cu, up, d)) == Dot(p.k, dw, d.weight)
  {
    hide Sum, WeightParts;
    var parts := WeightParts(p, cu, up);
    var terms: Mat := (s, j) => parts(s, j) * d.weight(j);
    forall s | 0 <= s < n
      ensures WeightPairs(p, cu, up, d)(s) == Sum(0, p.k, Row(terms, s))
    {
      SumEqual(0, p.k, Times(Row(parts, s), d.weight), Row(terms, s));
    }
    forall j | 0 <= j < p.k
      ensures Times(dw, d.weight)(j) == Sum(0, n, Col(terms, j))
    {
      SumScale(0, n, d.weight(j), Col(parts, j), Col(terms, j));
    }
    SumExchange(0, n, WeightPairs(p, cu, up, d), 0, p.k, Times(dw, d.weight), terms);
  }

  lemma StepsAdd(cu: seq<int>, t: int, dx: Vec, d: PackedDirection)
    requires Ordered(cu, t)
    ensures Sum(0, |cu| - 1, StepPairs(cu, dx, d)) == Dot(t, dx, d.x)
  {
    hide Sum, Dot, Times, StepPairs, BoundsAt;
    var n := |cu| - 1;
    forall s | 0 <= s < n
      ensures BoundsAt(cu)(s) <= BoundsAt(cu)(s + 1)
      ensures StepPairs(cu, dx, d)(s) == Sum(BoundsAt(cu)(s), BoundsAt(cu)(s + 1), Times(dx, d.x))
    {
      StepPairIs(cu, t, dx, d, s);
    }
    SumPieces(n, BoundsAt(cu), Times(dx, d.x), StepPairs(cu, dx, d));
    BoundIs(cu, 0);
    BoundIs(cu, n);
    DotIs(t, dx, d.x);
  }

  lemma BoundIs(cu: seq<int>, s: int)
    requires 0 <= s < |cu|
    ensures BoundsAt(cu)(s) == cu[s]
  {
  }

  lemma StepPairIs(cu: seq<int>, t: int, dx: Vec, d: PackedDirection, s: int)
    requires Ordered(cu, t) && 0 <= s < |cu| - 1
    ensures BoundsAt(cu)(s) <= BoundsAt(cu)(s + 1)
    ensures StepPairs(cu, dx, d)(s) == Sum(BoundsAt(cu)(s), BoundsAt(cu)(s + 1), Times(dx, d.x))
  {
    hide Sum, Times;
  }

  function BoundsAt(cu: seq<int>): int -> int { s => if 0 <= s < |cu| then cu[s] else 0 }

  /** Packed, the gradients are the adjoint of the call: the upstream gradients of the outputs and of the
      final states against their derivative is the gradients of the steps, of every state, of the taps
      and of the bias against the direction. */
  lemma PackedAdjoint(p: Packed, cu: seq<int>, up: Upstream, d: PackedDirection, dx: Vec, dstates: int -> Vec, dw: Vec,
                      db: real)
    requires p.Valid() && Ordered(cu, p.t)
    requires forall s :: 0 <= s < |cu| - 1 ==> PartDone(p, cu, up, dx, dstates, s)
    requires forall j :: 0 <= j < p.k ==> dw(j) == Sum(0, |cu| - 1, Col(WeightParts(p, cu, up), j))
    requires db == Sum(0, |cu| - 1, BiasParts(p, cu, up))
    ensures Sum(0, |cu| - 1, Pairings(p, cu, up, d))
         == Dot(p.t, dx, d.x) + Sum(0, |cu| - 1, StatePairs(p.w, dstates, d)) + Dot(p.k, dw, d.weight) + d.bias * db
  {
    hide Sum, Dot, PartDone, Pairings, StepPairs, StatePairs, WeightPairs, WeightParts, BiasParts;
    var n := |cu| - 1;
    forall s | 0 <= s < n
      ensures Pairings(p, cu, up, d)(s)
           == StepPairs(cu, dx, d)(s) + StatePairs(p.w, dstates, d)(s) + WeightPairs(p, cu, up, d)(s)
              + d.bias * BiasParts(p, cu, up)(s)
    {
      PartShare(p, cu, up, d, dx, dstates, s);
    }
    SharesSum(n, StepPairs(cu, dx, d), StatePairs(p.w, dstates, d), WeightPairs(p, cu, up, d), d.bias,
              BiasParts(p, cu, up), Pairings(p, cu, up, d));
    StepsAdd(cu, p.t, dx, d);
    WeightsAdd(p, cu, up, d, n, dw);
  }

  lemma SharesSum(n: int, a: Vec, b: Vec, e: Vec, f: real, h: Vec, all: Vec)
    requires forall s :: 0 <= s < n ==> all(s) == a(s) + b(s) + e(s) + f * h(s)
    ensures Sum(0, n, all) == Sum(0, n, a) + Sum(0, n, b) + Sum(0, n, e) + f * Sum(0, n, h)
  {
    hide Sum;
    var first: Vec := s => a(s) + b(s);
    var second: Vec := s => 1.0 * e(s) + f * h(s);
    SumAdd(0, n, first, second, all);
    SumAdd(0, n, a, b, first);
    SumLinear(0, n, 1.0, e, f, h, second);
  }

  // ----- the backward pass -----

  /** A sequence's own gradients, its final state's share joined. */
  ghost predicate OwnGrads(c: Conv, g: Vec, final: Vec, len: nat, dx: seq<real>, dstate: seq<real>, dw: seq<real>,
                           db: real)
    requires c.Valid()
  {
    && |dx| == c.t && (forall u :: 0 <= u < c.t ==> dx[u] == GradWithFinal(c, g, final, len)(u))
    && |dstate| == c.w && (forall i :: 0 <= i < c.w ==> dstate[i] == GradWithFinal(c, g, final, len)(i - c.w))
    && |dw| == c.k && (forall j :: 0 <= j < c.k ==> dw[j] == GradWeight(c, g)(j))
    && db == GradBias(c, g)
  }

  /** Without a step there is nothing for the kernels, and no gradient but the final state's. */
  lemma NoSteps(c: Conv, g: Vec)
    requires c.Valid() && c.t == 0
    ensures forall u :: GradHistory(c, g)(u) == 0.0
    ensures (forall j :: GradWeight(c, g)(j) == 0.0) && GradBias(c, g) == 0.0
  {
    hide Slope;
    forall u
      ensures GradHistory(c, g)(u) == 0.0
    {
      forall j | 0 <= j < c.k
        ensures HistoryTerms(c, g, u)(j) == 0.0
      {
        NoGradient(c, g, u + c.k - 1 - j);
      }
      SumZero(0, c.k, HistoryTerms(c, g, u));
    }
    forall j
      ensures GradWeight(c, g)(j) == 0.0
    {
      assert Sum(0, 0, WeightTerms(c, g, j)) == 0.0;
    }
  }

  /** One sequence through the kernels, which no sequence without a step reaches. */
  method KernelGrads(c: Conv, g: Vec, run: nat) returns (x: seq<real>, s: seq<real>, dw: seq<real>, db: real)
    requires c.Valid() && run > 0
    ensures HistoryDone(c, g, x, s)
    ensures |dw| == c.k && (forall j :: 0 <= j < c.k ==> dw[j] == GradWeight(c, g)(j)) && db == GradBias(c, g)
  {
    hide GradHistory, GradWeight, GradBias;
    if c.t == 0 {
      NoSteps(c, g);
      x, s, dw, db := [], seq(c.w, _ => 0.0), seq(c.k, _ => 0.0), 0.0;
    } else {
      var dws, dbs;
      x, s, dws, dbs := BackwardSequence(c, g, run, [], [], Zeros(), 0.0);
      dw, db := seq(c.k, j => RowTotal(dws, j)), RunTotal(dbs);
    }
  }

  /** One sequence, the final state's gradient added to the history's. */
  method SequenceGrads(c: Conv, g: Vec, final: Vec, len: nat, run: nat)
    returns (dx: seq<real>, dstate: seq<real>, dw: seq<real>, db: real)
    requires c.Valid() && run > 0
    ensures OwnGrads(c, g, final, len, dx, dstate, dw, db)
  {
    hide GradHistory, GradWeight, GradBias, FinalShare, GradWithFinal;
    var x, s;
    x, s, dw, db := KernelGrads(c, g, run);
    dx := seq(c.t, u requires 0 <= u < |x| => x[u] + FinalShare(c, final, len)(u));
    dstate := seq(c.w, i requires 0 <= i < |s| => s[i] + FinalShare(c, final, len)(i - c.w));
    FinalJoined(c, g, final, len, x, s, dx, dstate);
  }

  lemma FinalJoined(c: Conv, g: Vec, final: Vec, len: nat, x: seq<real>, s: seq<real>, dx: seq<real>, dstate: seq<real>)
    requires c.Valid() && HistoryDone(c, g, x, s) && |dx| == c.t && |dstate| == c.w
    requires forall u :: 0 <= u < c.t ==> dx[u] == x[u] + FinalShare(c, final, len)(u)
    requires forall i :: 0 <= i < c.w ==> dstate[i] == s[i] + FinalShare(c, final, len)(i - c.w)
    ensures forall u :: 0 <= u < c.t ==> dx[u] == GradWithFinal(c, g, final, len)(u)
    ensures forall i :: 0 <= i < c.w ==> dstate[i] == GradWithFinal(c, g, final, len)(i - c.w)
  {
    hide GradHistory, FinalShare;
  }

  function Zeros(): Vec { j => 0.0 }

  function StateAt(dstates: seq<seq<real>>, s: int): Vec {
    if 0 <= s < |dstates| then Entries(dstates[s]) else Zeros()
  }

  function StatesOf(dstates: seq<seq<real>>): int -> Vec { s => StateAt(dstates, s) }

  /** The taps' and the bias's gradients over the sequences before s. */
  ghost predicate SumsOver(p: Packed, cu: seq<int>, up: Upstream, s: nat, dw: seq<real>, db: real)
    requires p.Valid()
  {
    && |dw| == p.k && (forall j :: 0 <= j < p.k ==> dw[j] == Sum(0, s, Col(WeightParts(p, cu, up), j)))
    && db == Sum(0, s, BiasParts(p, cu, up))
  }

  ghost predicate PartsDone(p: Packed, cu: seq<int>, up: Upstream, n: nat, dx: seq<real>, dstates: seq<seq<real>>)
    requires p.Valid()
  {
    |dstates| == n && forall s :: 0 <= s < n ==> PartDone(p, cu, up, Entries(dx), StatesOf(dstates), s)
  }

  /** A sequence joined after those before it. */
  lemma PartJoined(p: Packed, cu: seq<int>, up: Upstream, s: nat, dx: seq<real>, dstates: seq<seq<real>>, x: seq<real>,
                   ds: seq<real>, dw: seq<real>, db: real)
    requires p.Valid() && Ordered(cu, p.t) && s < |cu| - 1 && |dx| == cu[s]
    requires PartsDone(p, cu, up, s, dx, dstates)
    requires OwnGrads(PartOf(p, cu, s), Later(up.out, cu[s]), up.finals(s), up.len, x, ds, dw, db)
    ensures PartsDone(p, cu, up, s + 1, dx + x, dstates + [ds])
  {
    hide GradWithFinal, GradWeight, GradBias;
    forall a | 0 <= a < s + 1
      ensures PartDone(p, cu, up, Entries(dx + x), StatesOf(dstates + [ds]), a)
    {
      if a < s {
        OrderedBetween(cu, p.t, 0, a);
        OrderedBetween(cu, p.t, a + 1, s);
        PartKept(p, cu, up, a, dx, dstates, x, ds);
      } else {
        OrderedBetween(cu, p.t, 0, s);
        OwnJoined(p, cu, up, s, dx, dstates, x, ds, dw, db);
      }
    }
  }

  lemma PartKept(p: Packed, cu: seq<int>, up: Upstream, a: nat, dx: seq<real>, dstates: seq<seq<real>>, x: seq<real>,
                 ds: seq<real>)
    requires p.Valid() && a < |cu| - 1 && a < |dstates| && 0 <= cu[a] <= cu[a + 1] <= |dx|
    requires PartDone(p, cu, up, Entries(dx), StatesOf(dstates), a)
    ensures PartDone(p, cu, up, Entries(dx + x), StatesOf(dstates + [ds]), a)
  {
    hide PartHistory;
    assert StatesOf(dstates + [ds])(a) == Entries(dstates[a]) == StatesOf(dstates)(a);
    forall u | cu[a] <= u < cu[a + 1]
      ensures Entries(dx + x)(u) == Entries(dx)(u)
    {
    }
  }

  lemma OwnJoined(p: Packed, cu: seq<int>, up: Upstream, s: nat, dx: seq<real>, dstates: seq<seq<real>>, x: seq<real>,
                  ds: seq<real>, dw: seq<real>, db: real)
    requires p.Valid() && s < |cu| - 1 && s == |dstates| && 0 <= cu[s] <= cu[s + 1] && |dx| == cu[s]
    requires OwnGrads(PartOf(p, cu, s), Later(up.out, cu[s]), up.finals(s), up.len, x, ds, dw, db)
    ensures PartDone(p, cu, up, Entries(dx + x), StatesOf(dstates + [ds]), s)
  {
    hide GradWithFinal, GradWeight, GradBias;
    assert StatesOf(dstates + [ds])(s) == Entries(ds);
    forall u | cu[s] <= u < cu[s + 1]
      ensures Entries(dx + x)(u) == PartHistory(p, cu, up, s)(u - cu[s])
    {
      assert (dx + x)[u] == x[u - cu[s]];
    }
  }

  lemma SumsGrow(p: Packed, cu: seq<int>, up: Upstream, s: nat, dw: seq<real>, db: real, x: seq<real>, ds: seq<real>,
                 more: seq<real>, moreBias: real)
    requires p.Valid() && s < |cu| - 1 && cu[s] <= cu[s + 1] && SumsOver(p, cu, up, s, dw, db)
    requires OwnGrads(PartOf(p, cu, s), Later(up.out, cu[s]), up.finals(s), up.len, x, ds, more, moreBias)
    ensures SumsOver(p, cu, up, s + 1, seq(p.k, j requires 0 <= j < |dw| && j < |more| => dw[j] + more[j]),
                     db + moreBias)
  {
    hide Sum, GradWithFinal, GradWeight, GradBias;
    SumNext(0, s, BiasParts(p, cu, up));
    forall j | 0 <= j < p.k
      ensures dw[j] + more[j] == Sum(0, s + 1, Col(WeightParts(p, cu, up), j))
    {
      SumNext(0, s, Col(WeightParts(p, cu, up), j));
    }
  }

  /** The backward pass of a packed call: every sequence's gradients in its place, the taps' and the bias's
      added over the sequences; together the adjoint of the call along any direction. */
  method Backward(p: Packed, cu: seq<int>, up: Upstream, run: nat)
    returns (dx: seq<real>, dstates: seq<seq<real>>, dw: seq<real>, db: real)
    requires p.Valid() && Ordered(cu, p.t) && run > 0
    ensures |dx| == p.t && PartsDone(p, cu, up, |cu| - 1, dx, dstates) && SumsOver(p, cu, up, |cu| - 1, dw, db)
    ensures forall d: PackedDirection ::
      Sum(0, |cu| - 1, Pairings(p, cu, up, d))
      == Dot(p.t, Entries(dx), d.x) + Sum(0, |cu| - 1, StatePairs(p.w, StatesOf(dstates), d))
         + Dot(p.k, Entries(dw), d.weight) + d.bias * db
  {
    hide OwnGrads, PartsDone, SumsOver, Sum, Dot, Pairings, StatePairs;
    dx, dstates, dw, db := [], [], seq(p.k, _ => 0.0), 0.0;
    Nothing(p, cu, up, dw);
    for s := 0 to |cu| - 1
      invariant |dx| == cu[s] && PartsDone(p, cu, up, s, dx, dstates) && SumsOver(p, cu, up, s, dw, db)
    {
      var x, ds, more, moreBias :=
        SequenceGrads(PartOf(p, cu, s), Later(up.out, cu[s]), up.finals(s), up.len, run);
      PartJoined(p, cu, up, s, dx, dstates, x, ds, more, moreBias);
      SumsGrow(p, cu, up, s, dw, db, x, ds, more, moreBias);
      Sizes(p, cu, up, s, dw, db, x, ds, more, moreBias);
      dx, dstates := dx + x, dstates + [ds];
      dw, db := seq(p.k, j requires 0 <= j < |dw| && j < |more| => dw[j] + more[j]), db + moreBias;
    }
    forall d: PackedDirection
      ensures Sum(0, |cu| - 1, Pairings(p, cu, up, d))
           == Dot(p.t, Entries(dx), d.x) + Sum(0, |cu| - 1, StatePairs(p.w, StatesOf(dstates), d))
              + Dot(p.k, Entries(dw), d.weight) + d.bias * db
    {
      BackwardAdjoint(p, cu, up, d, dx, dstates, dw, db);
    }
  }

  lemma Nothing(p: Packed, cu: seq<int>, up: Upstream, dw: seq<real>)
    requires p.Valid() && |dw| == p.k && forall j :: 0 <= j < p.k ==> dw[j] == 0.0
    ensures PartsDone(p, cu, up, 0, [], []) && SumsOver(p, cu, up, 0, dw, 0.0)
  {
  }

  lemma Sizes(p: Packed, cu: seq<int>, up: Upstream, s: nat, dw: seq<real>, db: real, x: seq<real>, ds: seq<real>,
              more: seq<real>, moreBias: real)
    requires p.Valid() && s < |cu| - 1 && cu[s] <= cu[s + 1] && SumsOver(p, cu, up, s, dw, db)
    requires OwnGrads(PartOf(p, cu, s), Later(up.out, cu[s]), up.finals(s), up.len, x, ds, more, moreBias)
    ensures |dw| == |more| == p.k && |x| == cu[s + 1] - cu[s]
  {
    hide Sum, GradWithFinal, GradWeight, GradBias;
  }

  lemma BackwardAdjoint(p: Packed, cu: seq<int>, up: Upstream, d: PackedDirection, dx: seq<real>,
                        dstates: seq<seq<real>>, dw: seq<real>, db: real)
    requires p.Valid() && Ordered(cu, p.t)
    requires PartsDone(p, cu, up, |cu| - 1, dx, dstates) && SumsOver(p, cu, up, |cu| - 1, dw, db)
    ensures Sum(0, |cu| - 1, Pairings(p, cu, up, d))
         == Dot(p.t, Entries(dx), d.x) + Sum(0, |cu| - 1, StatePairs(p.w, StatesOf(dstates), d))
            + Dot(p.k, Entries(dw), d.weight) + d.bias * db
  {
    hide Sum, Dot, Pairings, StatePairs, PartDone, WeightParts, BiasParts;
    PackedAdjoint(p, cu, up, d, Entries(dx), StatesOf(dstates), Entries(dw), db);
  }
}
