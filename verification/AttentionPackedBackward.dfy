/** The backward pass of packed sequences, for callers that run their own: each sequence's gradients
    by a call on it alone, joined, and nothing past the last sequence; and the proof that together
    they are the adjoint of the packed call. */
module AttentionPackedBackward {
  import opened Sums
  import opened Vectors
  import opened Analysis
  import opened AttentionBand
  import opened AttentionContract
  import opened AttentionGradient
  import opened AttentionBackward
  import opened AttentionPacked

  /** The output's gradient of a sequence whose first query is `at`. */
  function PartCotangent(dOut: Tensor, at: int): Cotangent { Cotangents(From(dOut, at), None) }

  /** The log-sum-exp as the pass is given it; a row that sees no key never reads its own. */
  function Entries(lse: (int, int) -> Extended, at: int): Mat {
    (n, i) => match lse(n, at + i) case NegInf => 0.0 case Fin(l) => l
  }

  /** The sequence's places hold its own gradients. */
  ghost predicate QueryGrads(c: Packed, q0: int, q1: int, k0: int, k1: int, dOut: Tensor, dq: Tensor)
    requires c.Valid() && c.Inside(q0, q1, k0, k1)
  {
    forall n, i, x :: 0 <= n < c.slices * c.group && q0 <= i < q1 && 0 <= x < c.d ==>
      dq(n, i, x) == GradQ(c.Part(q0, q1, k0, k1), PartCotangent(dOut, q0))(n, i - q0, x)
  }

  ghost predicate KeyGrads(c: Packed, q0: int, q1: int, k0: int, k1: int, dOut: Tensor, dk: Tensor, dv: Tensor)
    requires c.Valid() && c.Inside(q0, q1, k0, k1)
  {
    forall y, j, x :: 0 <= y < c.slices && k0 <= j < k1 && 0 <= x < c.d ==>
      && dk(y, j, x) == GradK(c.Part(q0, q1, k0, k1), PartCotangent(dOut, q0))(y, j - k0, x)
      && dv(y, j, x) == GradV(c.Part(q0, q1, k0, k1), PartCotangent(dOut, q0))(y, j - k0, x)
  }

  /** The places lo..hi of `heads` slices are zeros. */
  ghost predicate ZeroFrom(heads: int, d: int, lo: int, hi: int, t: Tensor) {
    forall n, i, x :: 0 <= n < heads && lo <= i < hi && 0 <= x < d ==> t(n, i, x) == 0.0
  }

  /** Without a query or without a key nothing flows. */
  lemma NoFlow(part: Call, g: Cotangent)
    requires part.Valid()
    ensures part.geom.tk == 0 ==> forall n, i, x :: GradQ(part, g)(n, i, x) == 0.0
    ensures part.geom.tq == 0 ==> forall y, j, x :: GradK(part, g)(y, j, x) == 0.0 && GradV(part, g)(y, j, x) == 0.0
  {
    if part.geom.tk == 0 {
      forall n, i, x
        ensures GradQ(part, g)(n, i, x) == 0.0
      {
        assert Combine(0, Row(DScores(part, g, n), i), ValuesOf(part, part.k, n))(x) == 0.0;
      }
    }
    if part.geom.tq == 0 {
      forall y, j, x
        ensures GradK(part, g)(y, j, x) == 0.0 && GradV(part, g)(y, j, x) == 0.0
      {
        NoHeadFlow(part, g, y, j, x);
      }
    }
  }

  lemma NoHeadFlow(part: Call, g: Cotangent, y: int, j: int, x: int)
    requires part.Valid() && part.geom.tq == 0
    ensures GradK(part, g)(y, j, x) == 0.0 && GradV(part, g)(y, j, x) == 0.0
  {
    forall n: int
      ensures HeadGradK(part, g)(n, j, x) == 0.0 * HeadGradK(part, g)(n, j, x)
      ensures HeadGradV(part, g)(n, j, x) == 0.0 * HeadGradV(part, g)(n, j, x)
    {
      assert Combine(0, Col(DScores(part, g, n), j), Slice(part.q, n))(x) == 0.0;
      assert Combine(0, Col(Probabilities(part, n), j), Slice(g.out, n))(x) == 0.0;
    }
    GroupScales(part, HeadGradK(part, g), 0.0, HeadGradK(part, g), y, j, x);
    GroupScales(part, HeadGradV(part, g), 0.0, HeadGradV(part, g), y, j, x);
  }

  /** The forward pass's rows of a sequence, moved to its start, are what its backward pass takes. */
  lemma PartReady(c: Packed, q0: int, q1: int, k0: int, k1: int, out: Tensor, lse: (int, int) -> Extended)
    requires c.Valid() && c.Inside(q0, q1, k0, k1) && PartHolds(c, q0, q1, k0, k1, out, lse)
    ensures Lse(Entries(lse, q0)).Of(c.Part(q0, q1, k0, k1))
    ensures forall n, i, x :: 0 <= n < c.slices * c.group && 0 <= i < q1 - q0 && 0 <= x < c.d ==>
              From(out, q0)(n, i, x) == c.Part(q0, q1, k0, k1).Out(n, i, x)
  {
    hide Sum, Call.Out, Call.Z;
    var part := c.Part(q0, q1, k0, k1);
    forall n, i | 0 <= n < c.slices * c.group && 0 <= i < q1 - q0
      ensures Normalises(part, n, i, Entries(lse, q0)(n, i), 1.0)
    {
      assert RowIs(part, q0, n, q0 + i, out, lse);
      assert q0 + i - q0 == i;
      ZPositive(part, n, i);
    }
    forall n, i, x | 0 <= n < c.slices * c.group && 0 <= i < q1 - q0 && 0 <= x < c.d
      ensures From(out, q0)(n, i, x) == part.Out(n, i, x)
    {
      assert RowIs(part, q0, n, q0 + i, out, lse);
      assert q0 + i - q0 == i;
    }
  }

  datatype PackedResult = Joined(dq: Tensor, dk: Tensor, dv: Tensor) | NoGradients

  /** The sums behind the sequence's picks going back fit. */
  predicate PartFits(c: Packed, q0: int, q1: int, k0: int, k1: int)
    requires c.Inside(q0, q1, k0, k1)
  {
    c.Part(q0, q1, k0, k1).geom.QueriesAllFit()
  }

  /** One sequence's gradients, by a call on it alone. */
  method SequenceGrads(c: Packed, q0: nat, q1: nat, k0: nat, k1: nat, out: Tensor, lse: (int, int) -> Extended,
                       dOut: Tensor, qb: nat, kb: nat)
    returns (dq: Tensor, dk: Tensor, dv: Tensor)
    requires c.Valid() && c.Inside(q0, q1, k0, k1) && qb > 0 && kb > 0
    requires PartHolds(c, q0, q1, k0, k1, out, lse)
    ensures PartFits(c, q0, q1, k0, k1) ==>
      QueryGrads(c, q0, q1, k0, k1, dOut, dq) && KeyGrads(c, q0, q1, k0, k1, dOut, dk, dv)
  {
    hide Sum, TakenGradients, Geometry.QueriesAllFit, PartHolds, GradQ, GradK, GradV, Normaliser.Of, Call.Out;
    var part, g := c.Part(q0, q1, k0, k1), PartCotangent(dOut, q0);
    if q1 > q0 && k1 > k0 {
      PartReady(c, q0, q1, k0, k1, out, lse);
      var pq, pk, pv := BlockedBackward(part, From(out, q0), Lse(Entries(lse, q0)), From(dOut, q0), None, qb, kb);
      dq, dk, dv := Shifted3(pq, q0), Shifted3(pk, k0), Shifted3(pv, k0);
    } else {
      NoFlow(part, g);
      dq, dk, dv := ZeroTensor(), ZeroTensor(), ZeroTensor();
    }
  }

  ghost predicate PartsHold(c: Packed, cuQ: seq<int>, cuK: seq<int>, m: nat, dOut: Tensor, dq: Tensor, dk: Tensor,
                            dv: Tensor)
    requires c.Valid() && m < |cuQ| && m < |cuK|
  {
    forall s :: 0 <= s < m ==>
      && c.Inside(cuQ[s], cuQ[s + 1], cuK[s], cuK[s + 1])
      && (PartFits(c, cuQ[s], cuQ[s + 1], cuK[s], cuK[s + 1]) ==>
            && QueryGrads(c, cuQ[s], cuQ[s + 1], cuK[s], cuK[s + 1], dOut, dq)
            && KeyGrads(c, cuQ[s], cuQ[s + 1], cuK[s], cuK[s + 1], dOut, dk, dv))
  }

  /** Places joined elsewhere leave a sequence's gradients, and its own joined give them. */
  lemma QueriesJoined(c: Packed, q0: int, q1: int, k0: int, k1: int, dOut: Tensor, dq: Tensor, lo: int, hi: int,
                      block: Tensor)
    requires c.Valid() && c.Inside(q0, q1, k0, k1)
    requires if lo == q0 && hi == q1 then QueryGrads(c, q0, q1, k0, k1, dOut, block)
             else q1 <= lo && QueryGrads(c, q0, q1, k0, k1, dOut, dq)
    ensures QueryGrads(c, q0, q1, k0, k1, dOut, Join(dq, lo, hi, block))
  {
    hide GradQ;
  }

  lemma KeysJoined(c: Packed, q0: int, q1: int, k0: int, k1: int, dOut: Tensor, dk: Tensor, dv: Tensor, lo: int,
                   hi: int, pk: Tensor, pv: Tensor)
    requires c.Valid() && c.Inside(q0, q1, k0, k1)
    requires if lo == k0 && hi == k1 then KeyGrads(c, q0, q1, k0, k1, dOut, pk, pv)
             else k1 <= lo && KeyGrads(c, q0, q1, k0, k1, dOut, dk, dv)
    ensures KeyGrads(c, q0, q1, k0, k1, dOut, Join(dk, lo, hi, pk), Join(dv, lo, hi, pv))
  {
    hide GradK, GradV;
  }

  /** A sequence joined after those before it. */
  lemma PartsGrow(c: Packed, cuQ: seq<int>, cuK: seq<int>, m: nat, dOut: Tensor, dq: Tensor, dk: Tensor, dv: Tensor,
                  pq: Tensor, pk: Tensor, pv: Tensor)
    requires c.Valid() && m + 1 < |cuQ| && m + 1 < |cuK| && PartsHold(c, cuQ, cuK, m, dOut, dq, dk, dv)
    requires c.Inside(cuQ[m], cuQ[m + 1], cuK[m], cuK[m + 1])
    requires forall s :: 0 < s <= m ==> cuQ[s] <= cuQ[m] && cuK[s] <= cuK[m]
    requires PartFits(c, cuQ[m], cuQ[m + 1], cuK[m], cuK[m + 1]) ==>
      && QueryGrads(c, cuQ[m], cuQ[m + 1], cuK[m], cuK[m + 1], dOut, pq)
      && KeyGrads(c, cuQ[m], cuQ[m + 1], cuK[m], cuK[m + 1], dOut, pk, pv)
    ensures PartsHold(c, cuQ, cuK, m + 1, dOut, Join(dq, cuQ[m], cuQ[m + 1], pq), Join(dk, cuK[m], cuK[m + 1], pk),
                      Join(dv, cuK[m], cuK[m + 1], pv))
  {
    hide QueryGrads, KeyGrads, PartFits;
    forall s | 0 <= s < m + 1
      ensures c.Inside(cuQ[s], cuQ[s + 1], cuK[s], cuK[s + 1])
    {
    }
    forall s | 0 <= s < m + 1 && PartFits(c, cuQ[s], cuQ[s + 1], cuK[s], cuK[s + 1])
      ensures QueryGrads(c, cuQ[s], cuQ[s + 1], cuK[s], cuK[s + 1], dOut, Join(dq, cuQ[m], cuQ[m + 1], pq))
      ensures KeyGrads(c, cuQ[s], cuQ[s + 1], cuK[s], cuK[s + 1], dOut, Join(dk, cuK[m], cuK[m + 1], pk),
                       Join(dv, cuK[m], cuK[m + 1], pv))
    {
      if s < m && cuQ[s] == cuQ[m] && cuQ[s + 1] == cuQ[m + 1] {
        EmptyQueries(c, cuQ[s], cuK[s], cuK[s + 1], dOut, Join(dq, cuQ[m], cuQ[m + 1], pq));
      } else {
        QueriesJoined(c, cuQ[s], cuQ[s + 1], cuK[s], cuK[s + 1], dOut, dq, cuQ[m], cuQ[m + 1], pq);
      }
      if s < m && cuK[s] == cuK[m] && cuK[s + 1] == cuK[m + 1] {
        EmptyKeys(c, cuQ[s], cuQ[s + 1], cuK[s], dOut, Join(dk, cuK[m], cuK[m + 1], pk),
                  Join(dv, cuK[m], cuK[m + 1], pv));
      } else {
        KeysJoined(c, cuQ[s], cuQ[s + 1], cuK[s], cuK[s + 1], dOut, dk, dv, cuK[m], cuK[m + 1], pk, pv);
      }
    }
  }

  lemma EmptyQueries(c: Packed, q0: int, k0: int, k1: int, dOut: Tensor, dq: Tensor)
    requires c.Valid() && c.Inside(q0, q0, k0, k1)
    ensures QueryGrads(c, q0, q0, k0, k1, dOut, dq)
  {
  }

  lemma EmptyKeys(c: Packed, q0: int, q1: int, k0: int, dOut: Tensor, dk: Tensor, dv: Tensor)
    requires c.Valid() && c.Inside(q0, q1, k0, k0)
    ensures KeyGrads(c, q0, q1, k0, k0, dOut, dk, dv)
  {
  }

  /** Past the last sequence zeros are joined. */
  lemma PartsKept(c: Packed, cuQ: seq<int>, cuK: seq<int>, m: nat, dOut: Tensor, dq: Tensor, dk: Tensor, dv: Tensor)
    requires c.Valid() && m < |cuQ| && m < |cuK| && PartsHold(c, cuQ, cuK, m, dOut, dq, dk, dv)
    requires forall s :: 0 < s <= m ==> cuQ[s] <= cuQ[m] && cuK[s] <= cuK[m]
    ensures PartsHold(c, cuQ, cuK, m, dOut, Join(dq, cuQ[m], c.tq, ZeroTensor()), Join(dk, cuK[m], c.tk, ZeroTensor()),
                      Join(dv, cuK[m], c.tk, ZeroTensor()))
  {
    hide QueryGrads, KeyGrads, PartFits;
    forall s | 0 <= s < m
      ensures c.Inside(cuQ[s], cuQ[s + 1], cuK[s], cuK[s + 1])
    {
    }
    forall s | 0 <= s < m && PartFits(c, cuQ[s], cuQ[s + 1], cuK[s], cuK[s + 1])
      ensures QueryGrads(c, cuQ[s], cuQ[s + 1], cuK[s], cuK[s + 1], dOut, Join(dq, cuQ[m], c.tq, ZeroTensor()))
      ensures KeyGrads(c, cuQ[s], cuQ[s + 1], cuK[s], cuK[s + 1], dOut, Join(dk, cuK[m], c.tk, ZeroTensor()),
                       Join(dv, cuK[m], c.tk, ZeroTensor()))
    {
      if cuQ[s] == cuQ[m] && cuQ[s + 1] == c.tq {
        EmptyQueries(c, cuQ[s], cuK[s], cuK[s + 1], dOut, Join(dq, cuQ[m], c.tq, ZeroTensor()));
      } else {
        QueriesJoined(c, cuQ[s], cuQ[s + 1], cuK[s], cuK[s + 1], dOut, dq, cuQ[m], c.tq, ZeroTensor());
      }
      if cuK[s] == cuK[m] && cuK[s + 1] == c.tk {
        EmptyKeys(c, cuQ[s], cuQ[s + 1], cuK[s], dOut, Join(dk, cuK[m], c.tk, ZeroTensor()),
                  Join(dv, cuK[m], c.tk, ZeroTensor()));
      } else {
        KeysJoined(c, cuQ[s], cuQ[s + 1], cuK[s], cuK[s + 1], dOut, dk, dv, cuK[m], c.tk, ZeroTensor(), ZeroTensor());
      }
    }
  }

  function Sequences(cuQ: seq<int>, cuK: seq<int>): int { MinInt(|cuQ|, |cuK|) - 1 }

  /** `attention_backward` over packed sequences. It takes offsets of different counts, the sequences
      both of them hold, and is refused exactly when an offset check is, or when there is no sequence and
      no query or no key to join. */
  method DispatchBackward(c: Packed, cuQ: seq<int>, cuK: seq<int>, out: Tensor, lse: (int, int) -> Extended,
                          dOut: Tensor, qb: nat, kb: nat)
    returns (r: PackedResult)
    requires c.Valid() && qb > 0 && kb > 0
    requires CheckOffsets(cuQ, c.tq).Accepted? && CheckOffsets(cuK, c.tk).Accepted? ==>
      forall s :: 0 <= s < Sequences(cuQ, cuK) ==>
        && c.Inside(cuQ[s], cuQ[s + 1], cuK[s], cuK[s + 1])
        && PartHolds(c, cuQ[s], cuQ[s + 1], cuK[s], cuK[s + 1], out, lse)
    ensures r.Joined? <==>
      && CheckOffsets(cuQ, c.tq).Accepted? && CheckOffsets(cuK, c.tk).Accepted?
      && (Sequences(cuQ, cuK) > 0 || (c.tq > 0 && c.tk > 0))
    ensures r.Joined? ==>
      var m := Sequences(cuQ, cuK);
      && PartsHold(c, cuQ, cuK, m, dOut, r.dq, r.dk, r.dv)
      && ZeroFrom(c.slices * c.group, c.d, cuQ[m], c.tq, r.dq)
      && ZeroFrom(c.slices, c.d, cuK[m], c.tk, r.dk) && ZeroFrom(c.slices, c.d, cuK[m], c.tk, r.dv)
  {
    hide Sum, PartHolds, PartsHold, QueryGrads, KeyGrads;
    if CheckOffsets(cuQ, c.tq).Refused? || CheckOffsets(cuK, c.tk).Refused? {
      return NoGradients;
    }
    var m := Sequences(cuQ, cuK);
    var dq, dk, dv := ZeroTensor(), ZeroTensor(), ZeroTensor();
    var qPieces, kPieces := 0, 0;
    assert PartsHold(c, cuQ, cuK, 0, dOut, dq, dk, dv) by { NoParts(c, cuQ, cuK, dOut); }
    for s := 0 to m
      invariant qPieces == kPieces == s
      invariant PartsHold(c, cuQ, cuK, s, dOut, dq, dk, dv)
    {
      var q0, q1, k0, k1 := cuQ[s], cuQ[s + 1], cuK[s], cuK[s + 1];
      var pq, pk, pv := SequenceGrads(c, q0, q1, k0, k1, out, lse, dOut, qb, kb);
      PartsGrow(c, cuQ, cuK, s, dOut, dq, dk, dv, pq, pk, pv);
      dq, dk, dv := Join(dq, q0, q1, pq), Join(dk, k0, k1, pk), Join(dv, k0, k1, pv);
      qPieces, kPieces := qPieces + 1, kPieces + 1;
    }
    PartsKept(c, cuQ, cuK, m, dOut, dq, dk, dv);
    dq := Join(dq, cuQ[m], c.tq, ZeroTensor());
    dk, dv := Join(dk, cuK[m], c.tk, ZeroTensor()), Join(dv, cuK[m], c.tk, ZeroTensor());
    if cuQ[m] < c.tq {
      qPieces := qPieces + 1;
    }
    if cuK[m] < c.tk {
      kPieces := kPieces + 1;
    }
    if qPieces == 0 || kPieces == 0 {
      return NoGradients;
    }
    r := Joined(dq, dk, dv);
  }

  lemma NoParts(c: Packed, cuQ: seq<int>, cuK: seq<int>, dOut: Tensor)
    requires c.Valid() && 0 < |cuQ| && 0 < |cuK|
    ensures PartsHold(c, cuQ, cuK, 0, dOut, ZeroTensor(), ZeroTensor(), ZeroTensor())
  {
  }

  // ----- the adjoint identity -----

  /** Head n's query i against key j over dual numbers, both by their places in the batch. */
  function DualProductsAt(c: Packed, t: Direction, n: int, i: int, j: int): int -> Dual
    requires c.group > 0
  {
    y => Dual(c.q(n, i, y), t.q(n, i, y)).Times(Dual(c.k(n / c.group, j, y), t.k(n / c.group, j, y)))
  }

  function DualScoreAt(c: Packed, t: Direction, n: int, i: int, j: int): Dual
    requires c.group > 0
  {
    Const(c.scale).Times(SumDual(0, c.d, DualProductsAt(c, t, n, i, j)))
  }

  /** Whether the sequence of the queries q0..q1 and the keys k0..k1 has query i see key j. */
  predicate SeesAt(c: Packed, q0: int, q1: int, k0: int, k1: int, i: int, j: int)
    requires q0 <= q1 && k0 <= k1
  {
    Geometry(q1 - q0, k1 - k0, c.left, c.right).KernelSees(i - q0, j - k0)
  }

  function DualWeightsAt(c: Packed, q0: int, q1: int, k0: int, k1: int, t: Direction, n: int, i: int): int -> Dual
    requires c.group > 0 && q0 <= q1 && k0 <= k1
  {
    j => if SeesAt(c, q0, q1, k0, k1, i, j) then DualScoreAt(c, t, n, i, j).Exp(c.e) else Const(0.0)
  }

  function DualZAt(c: Packed, q0: int, q1: int, k0: int, k1: int, t: Direction, n: int, i: int): Dual
    requires c.group > 0 && q0 <= q1 && k0 <= k1
  {
    SumDual(k0, k1, DualWeightsAt(c, q0, q1, k0, k1, t, n, i))
  }

  function DualTermsAt(c: Packed, q0: int, q1: int, k0: int, k1: int, t: Direction, n: int, i: int, x: int): int -> Dual
    requires c.group > 0 && q0 <= q1 && k0 <= k1 && DualZAt(c, q0, q1, k0, k1, t, n, i).v > 0.0
  {
    var lse := DualZAt(c, q0, q1, k0, k1, t, n, i).Ln(c.e);
    j =>
      (if SeesAt(c, q0, q1, k0, k1, i, j) then DualScoreAt(c, t, n, i, j).Minus(lse).Exp(c.e) else Const(0.0))
        .Times(Dual(c.v(n / c.group, j, x), t.v(n / c.group, j, x)))
  }

  /** Query i's output and how it moves. */
  function DualOutAt(c: Packed, q0: int, q1: int, k0: int, k1: int, t: Direction, n: int, i: int): int -> Dual
    requires c.group > 0 && q0 <= q1 && k0 <= k1 && DualZAt(c, q0, q1, k0, k1, t, n, i).v > 0.0
  {
    x => SumDual(k0, k1, DualTermsAt(c, q0, q1, k0, k1, t, n, i, x))
  }

  /** A row's cotangent against its output's derivative; nothing for a row that sees no key. */
  function RowPairingAt(c: Packed, q0: int, q1: int, k0: int, k1: int, t: Direction, dOut: Tensor, n: int): Vec
    requires c.group > 0 && q0 <= q1 && k0 <= k1
  {
    i =>
      if DualZAt(c, q0, q1, k0, k1, t, n, i).v > 0.0
      then Dot(c.d, RowTensor(dOut, n, i), Tangents(DualOutAt(c, q0, q1, k0, k1, t, n, i)))
      else 0.0
  }

  function HeadPairingAt(c: Packed, q0: int, q1: int, k0: int, k1: int, t: Direction, dOut: Tensor): Vec
    requires c.group > 0 && q0 <= q1 && k0 <= k1
  {
    n => Sum(q0, q1, RowPairingAt(c, q0, q1, k0, k1, t, dOut, n))
  }

  /** The cotangent of the packed outputs against their derivative, sequence by sequence; the queries
      past the last one have zeros whatever the inputs. */
  function SequencePairing(c: Packed, q0: int, q1: int, k0: int, k1: int, t: Direction, dOut: Tensor): real
    requires c.group > 0 && c.slices > 0 && c.Inside(q0, q1, k0, k1)
  {
    Sum(0, c.slices * c.group, HeadPairingAt(c, q0, q1, k0, k1, t, dOut))
  }

  function PartDirection(t: Direction, q0: int, k0: int): Direction {
    Direction(From(t.q, q0), From(t.k, k0), From(t.v, k0))
  }

  lemma PartScore(c: Packed, q0: int, q1: int, k0: int, k1: int, t: Direction, n: int, i: int, j: int)
    requires c.Valid() && c.Inside(q0, q1, k0, k1)
    ensures DualScore(c.Part(q0, q1, k0, k1), PartDirection(t, q0, k0), n, i, j) == DualScoreAt(c, t, n, q0 + i, k0 + j)
  {
    hide SumDual;
    SumDualEqual(0, c.d, DualProductsAt(c, t, n, q0 + i, k0 + j),
                 DualProducts(c.Part(q0, q1, k0, k1), PartDirection(t, q0, k0), n, i, j));
  }

  lemma PartSees(c: Packed, q0: int, q1: int, k0: int, k1: int, n: int, i: int, j: int)
    requires c.Valid() && c.Inside(q0, q1, k0, k1)
    ensures c.slices * c.group > 0
    ensures c.Part(q0, q1, k0, k1).Visible(n, i, j) <==> SeesAt(c, q0, q1, k0, k1, q0 + i, k0 + j)
  {
    hide Geometry.KernelSees;
    assert q0 + i - q0 == i && k0 + j - k0 == j;
  }

  lemma PartZ(c: Packed, q0: int, q1: int, k0: int, k1: int, t: Direction, n: int, i: int)
    requires c.Valid() && c.Inside(q0, q1, k0, k1)
    ensures c.slices * c.group > 0
    ensures DualZ(c.Part(q0, q1, k0, k1), PartDirection(t, q0, k0), n, i) == DualZAt(c, q0, q1, k0, k1, t, n, q0 + i)
  {
    hide SumDual, DualScore, DualScoreAt, SeesAt, Call.Visible;
    PartSees(c, q0, q1, k0, k1, n, i, 0);
    var part, d := c.Part(q0, q1, k0, k1), PartDirection(t, q0, k0);
    forall j | 0 <= j < k1 - k0
      ensures DualWeights(part, d, n, i)(j) == DualWeightsAt(c, q0, q1, k0, k1, t, n, q0 + i)(j + k0)
    {
      PartSees(c, q0, q1, k0, k1, n, i, j);
      PartScore(c, q0, q1, k0, k1, t, n, i, j);
      assert k0 + j == j + k0;
    }
    SumDualShift(0, k1 - k0, k0, DualWeightsAt(c, q0, q1, k0, k1, t, n, q0 + i), DualWeights(part, d, n, i));
  }

  lemma PartOut(c: Packed, q0: int, q1: int, k0: int, k1: int, t: Direction, n: int, i: int, x: int)
    requires c.Valid() && c.Inside(q0, q1, k0, k1) && DualZAt(c, q0, q1, k0, k1, t, n, q0 + i).v > 0.0
    ensures c.slices * c.group > 0
    ensures DualZ(c.Part(q0, q1, k0, k1), PartDirection(t, q0, k0), n, i).v > 0.0
    ensures DualOut(c.Part(q0, q1, k0, k1), PartDirection(t, q0, k0), n, i, x)
         == DualOutAt(c, q0, q1, k0, k1, t, n, q0 + i)(x)
  {
    hide SumDual, DualScore, DualScoreAt, DualZ, DualZAt, SeesAt, Call.Visible;
    PartZ(c, q0, q1, k0, k1, t, n, i);
    var part, d := c.Part(q0, q1, k0, k1), PartDirection(t, q0, k0);
    forall j | 0 <= j < k1 - k0
      ensures DualValueTerms(part, d, n, i, x)(j) == DualTermsAt(c, q0, q1, k0, k1, t, n, q0 + i, x)(j + k0)
    {
      PartTerm(c, q0, q1, k0, k1, t, n, i, j, x);
    }
    SumDualShift(0, k1 - k0, k0, DualTermsAt(c, q0, q1, k0, k1, t, n, q0 + i, x), DualValueTerms(part, d, n, i, x));
  }

  lemma PartTerm(c: Packed, q0: int, q1: int, k0: int, k1: int, t: Direction, n: int, i: int, j: int, x: int)
    requires c.Valid() && c.Inside(q0, q1, k0, k1) && DualZAt(c, q0, q1, k0, k1, t, n, q0 + i).v > 0.0
    ensures c.slices * c.group > 0
    ensures DualZ(c.Part(q0, q1, k0, k1), PartDirection(t, q0, k0), n, i).v > 0.0
    ensures DualValueTerms(c.Part(q0, q1, k0, k1), PartDirection(t, q0, k0), n, i, x)(j)
         == DualTermsAt(c, q0, q1, k0, k1, t, n, q0 + i, x)(j + k0)
  {
    hide SumDual, DualScore, DualScoreAt, DualZ, DualZAt, SeesAt, Call.Visible;
    PartZ(c, q0, q1, k0, k1, t, n, i);
    PartSees(c, q0, q1, k0, k1, n, i, j);
    PartScore(c, q0, q1, k0, k1, t, n, i, j);
    var part, d := c.Part(q0, q1, k0, k1), PartDirection(t, q0, k0);
    var lse := DualLse(part, d, n, i);
    assert k0 + j == j + k0;
    assert lse == DualZAt(c, q0, q1, k0, k1, t, n, q0 + i).Ln(c.e);
    var p := if part.Visible(n, i, j) then DualScore(part, d, n, i, j).Minus(lse).Exp(c.e) else Const(0.0);
    assert DualP(part, d, n, i)(j) == p;
    assert Dual(part.v(n / c.group, j, x), d.v(n / c.group, j, x))
        == Dual(c.v(n / c.group, j + k0, x), t.v(n / c.group, j + k0, x));
    assert DualTermsAt(c, q0, q1, k0, k1, t, n, q0 + i, x)(j + k0)
        == p.Times(Dual(c.v(n / c.group, j + k0, x), t.v(n / c.group, j + k0, x)));
  }

  /** A row of the sequence's own call pairs as the batch's row does. */
  lemma PartRow(c: Packed, q0: int, q1: int, k0: int, k1: int, t: Direction, dOut: Tensor, n: int, i: int)
    requires c.Valid() && c.Inside(q0, q1, k0, k1)
    ensures c.slices * c.group > 0
    ensures RowPairing(c.Part(q0, q1, k0, k1), PartDirection(t, q0, k0), PartCotangent(dOut, q0), n, i)
         == RowPairingAt(c, q0, q1, k0, k1, t, dOut, n)(q0 + i)
  {
    hide Sum, Dot, DualZ, DualZAt, DualOut, DualOutAt;
    PartZ(c, q0, q1, k0, k1, t, n, i);
    if DualZAt(c, q0, q1, k0, k1, t, n, q0 + i).v > 0.0 {
      var part, d := c.Part(q0, q1, k0, k1), PartDirection(t, q0, k0);
      forall x | 0 <= x < c.d
        ensures Tangents(DualOutRow(part, d, n, i))(x) == Tangents(DualOutAt(c, q0, q1, k0, k1, t, n, q0 + i))(x)
      {
        PartOut(c, q0, q1, k0, k1, t, n, i, x);
      }
      DotEqual(c.d, RowTensor(PartCotangent(dOut, q0).out, n, i), Tangents(DualOutRow(part, d, n, i)),
               RowTensor(dOut, n, q0 + i), Tangents(DualOutAt(c, q0, q1, k0, k1, t, n, q0 + i)));
    }
  }

  lemma PartPairing(c: Packed, q0: int, q1: int, k0: int, k1: int, t: Direction, dOut: Tensor)
    requires c.Valid() && c.Inside(q0, q1, k0, k1)
    ensures c.slices * c.group > 0
    ensures SequencePairing(c, q0, q1, k0, k1, t, dOut)
         == Sum(0, c.slices * c.group,
                HeadPairings(c.Part(q0, q1, k0, k1), PartDirection(t, q0, k0), PartCotangent(dOut, q0)))
  {
    hide Sum, RowPairing, RowPairingAt;
    PartSees(c, q0, q1, k0, k1, 0, 0, 0);
    var part, d, g := c.Part(q0, q1, k0, k1), PartDirection(t, q0, k0), PartCotangent(dOut, q0);
    forall n | 0 <= n < c.slices * c.group
      ensures HeadPairings(part, d, g)(n) == HeadPairingAt(c, q0, q1, k0, k1, t, dOut)(n)
    {
      forall i | 0 <= i < q1 - q0
        ensures RowPairings(part, d, g, n)(i) == RowPairingAt(c, q0, q1, k0, k1, t, dOut, n)(i + q0)
      {
        PartRow(c, q0, q1, k0, k1, t, dOut, n, i);
        assert q0 + i == i + q0;
      }
      SumShift(0, q1 - q0, q0, RowPairingAt(c, q0, q1, k0, k1, t, dOut, n), RowPairings(part, d, g, n));
    }
    SumEqual(0, c.slices * c.group, HeadPairings(part, d, g), HeadPairingAt(c, q0, q1, k0, k1, t, dOut));
  }

  function SequencePairings(c: Packed, cuQ: seq<int>, cuK: seq<int>, t: Direction, dOut: Tensor): Vec
    requires c.group > 0 && c.slices > 0
  {
    s => if 0 <= s < MinInt(|cuQ|, |cuK|) - 1 && c.Inside(cuQ[s], cuQ[s + 1], cuK[s], cuK[s + 1])
         then SequencePairing(c, cuQ[s], cuQ[s + 1], cuK[s], cuK[s + 1], t, dOut) else 0.0
  }

  /** The inner products of a sequence's places. */
  function PieceInner(heads: int, d: int, cu: seq<int>, a: Tensor, b: Tensor): Vec {
    s => if 0 <= s < |cu| - 1 then TensorInner(heads, cu[s + 1] - cu[s], d, From(a, cu[s]), From(b, cu[s])) else 0.0
  }

  lemma TensorInnerEqual(heads: int, n: int, d: int, a: Tensor, b: Tensor, b': Tensor)
    requires forall y, i, x :: 0 <= y < heads && 0 <= i < n && 0 <= x < d ==> b(y, i, x) == b'(y, i, x)
    ensures TensorInner(heads, n, d, a, b) == TensorInner(heads, n, d, a, b')
  {
    hide Sum, Inner;
    forall y | 0 <= y < heads
      ensures TensorTerms(n, d, a, b)(y) == TensorTerms(n, d, a, b')(y)
    {
      forall i, x | 0 <= i < n && 0 <= x < d
        ensures Slice(b, y)(i, x) == Slice(b', y)(i, x)
      {
        assert b(y, i, x) == b'(y, i, x);
      }
      InnerEqual(n, d, Slice(a, y), Slice(b, y), Slice(a, y), Slice(b', y));
    }
    SumEqual(0, heads, TensorTerms(n, d, a, b), TensorTerms(n, d, a, b'));
  }

  /** Consecutive pieces of a slice's places, and nothing past the last. */
  lemma SlicePieces(d: int, cu: seq<int>, m: nat, n: int, a: Mat, b: Mat, parts: Vec)
    requires m < |cu| && cu[0] == 0 && cu[m] <= n && forall s :: 0 <= s < m ==> cu[s] <= cu[s + 1]
    requires forall i, x :: cu[m] <= i < n && 0 <= x < d ==> b(i, x) == 0.0
    requires forall s :: 0 <= s < m ==> parts(s) == Sum(cu[s], cu[s + 1], RowPairs(d, a, b))
    ensures Sum(0, m, parts) == Inner(n, d, a, b)
  {
    hide Sum, Dot;
    var bounds: int -> int := s => if 0 <= s < |cu| then cu[s] else 0;
    SumPieces(m, bounds, RowPairs(d, a, b), parts);
    SumSplit(0, cu[m], n, RowPairs(d, a, b));
    forall i | cu[m] <= i < n
      ensures RowPairs(d, a, b)(i) == 0.0
    {
      forall x | 0 <= x < d
        ensures Row(b, i)(x) == 0.0
      {
        assert b(i, x) == 0.0;
      }
      ZeroRow(d, Row(a, i), Row(b, i));
    }
    SumZero(cu[m], n, RowPairs(d, a, b));
  }

  lemma ZeroRow(d: int, f: Vec, g: Vec)
    requires forall x :: 0 <= x < d ==> g(x) == 0.0
    ensures Dot(d, f, g) == 0.0
  {
    hide Sum;
    SumZero(0, d, Times(f, g));
  }

  function SlicePart(d: int, cu: seq<int>, a: Tensor, b: Tensor): Mat {
    (s, y) => if 0 <= s < |cu| - 1
              then Inner(cu[s + 1] - cu[s], d, Slice(From(a, cu[s]), y), Slice(From(b, cu[s]), y)) else 0.0
  }

  lemma MovedRows(d: int, at: int, len: nat, a: Tensor, b: Tensor, y: int)
    ensures Inner(len, d, Slice(From(a, at), y), Slice(From(b, at), y))
         == Sum(at, at + len, RowPairs(d, Slice(a, y), Slice(b, y)))
  {
    hide Sum;
    forall i | 0 <= i < len
      ensures RowPairs(d, Slice(From(a, at), y), Slice(From(b, at), y))(i)
        == RowPairs(d, Slice(a, y), Slice(b, y))(i + at)
    {
      DotEqual(d, Row(Slice(From(a, at), y), i), Row(Slice(From(b, at), y), i), Row(Slice(a, y), i + at),
               Row(Slice(b, y), i + at));
    }
    SumShift(0, len, at, RowPairs(d, Slice(a, y), Slice(b, y)),
             RowPairs(d, Slice(From(a, at), y), Slice(From(b, at), y)));
  }

  /** One slice of a tensor by its pieces. */
  lemma SliceOfPieces(d: int, cu: seq<int>, m: nat, n: int, a: Tensor, b: Tensor, y: int)
    requires m < |cu| && cu[0] == 0 && cu[m] <= n && forall s :: 0 <= s < m ==> cu[s] <= cu[s + 1]
    requires forall i, x :: cu[m] <= i < n && 0 <= x < d ==> b(y, i, x) == 0.0
    ensures TensorTerms(n, d, a, b)(y) == Sum(0, m, Col(SlicePart(d, cu, a, b), y))
  {
    hide Sum, Inner;
    var parts := SlicePart(d, cu, a, b);
    forall s | 0 <= s < m
      ensures Col(parts, y)(s) == Sum(cu[s], cu[s + 1], RowPairs(d, Slice(a, y), Slice(b, y)))
    {
      MovedRows(d, cu[s], cu[s + 1] - cu[s], a, b, y);
    }
    forall i, x | cu[m] <= i < n && 0 <= x < d
      ensures Slice(b, y)(i, x) == 0.0
    {
      assert b(y, i, x) == 0.0;
    }
    SlicePieces(d, cu, m, n, Slice(a, y), Slice(b, y), Col(parts, y));
  }

  lemma PieceBySlices(heads: int, d: int, cu: seq<int>, a: Tensor, b: Tensor, s: int)
    requires 0 <= s < |cu| - 1
    ensures PieceInner(heads, d, cu, a, b)(s) == Sum(0, heads, Row(SlicePart(d, cu, a, b), s))
  {
    hide Sum, Inner;
    SumEqual(0, heads, TensorTerms(cu[s + 1] - cu[s], d, From(a, cu[s]), From(b, cu[s])),
             Row(SlicePart(d, cu, a, b), s));
  }

  /** The pieces of a tensor's places, and nothing past the last. */
  lemma TensorPieces(heads: int, d: int, cu: seq<int>, m: nat, n: int, a: Tensor, b: Tensor)
    requires m < |cu| && cu[0] == 0 && cu[m] <= n && forall s :: 0 <= s < m ==> cu[s] <= cu[s + 1]
    requires ZeroFrom(heads, d, cu[m], n, b)
    ensures Sum(0, m, PieceInner(heads, d, cu, a, b)) == TensorInner(heads, n, d, a, b)
  {
    hide Sum, Inner, PieceInner, SlicePart;
    var parts := SlicePart(d, cu, a, b);
    forall s | 0 <= s < m
      ensures PieceInner(heads, d, cu, a, b)(s) == Sum(0, heads, Row(parts, s))
    {
      PieceBySlices(heads, d, cu, a, b, s);
    }
    forall y | 0 <= y < heads
      ensures TensorTerms(n, d, a, b)(y) == Sum(0, m, Col(parts, y))
    {
      SliceOfPieces(d, cu, m, n, a, b, y);
    }
    SumExchange(0, m, PieceInner(heads, d, cu, a, b), 0, heads, TensorTerms(n, d, a, b), parts);
  }

  /** One sequence: its pairing by its places of the three gradients. */
  lemma SequenceAdjoint(c: Packed, q0: int, q1: int, k0: int, k1: int, t: Direction, dOut: Tensor, dq: Tensor,
                        dk: Tensor, dv: Tensor)
    requires c.Valid() && c.Inside(q0, q1, k0, k1)
    requires QueryGrads(c, q0, q1, k0, k1, dOut, dq) && KeyGrads(c, q0, q1, k0, k1, dOut, dk, dv)
    ensures SequencePairing(c, q0, q1, k0, k1, t, dOut)
         == TensorInner(c.slices * c.group, q1 - q0, c.d, From(t.q, q0), From(dq, q0))
            + TensorInner(c.slices, k1 - k0, c.d, From(t.k, k0), From(dk, k0))
            + TensorInner(c.slices, k1 - k0, c.d, From(t.v, k0), From(dv, k0))
  {
    hide Sum, TensorInner, GradQ, GradK, GradV, HeadPairings, SequencePairing;
    PartPairing(c, q0, q1, k0, k1, t, dOut);
    var part, g := c.Part(q0, q1, k0, k1), PartCotangent(dOut, q0);
    AttentionAdjoint(part, PartDirection(t, q0, k0), g);
    forall n, i, x | 0 <= n < c.slices * c.group && 0 <= i < q1 - q0 && 0 <= x < c.d
      ensures GradQ(part, g)(n, i, x) == From(dq, q0)(n, i, x)
    {
      assert dq(n, q0 + i, x) == GradQ(part, g)(n, q0 + i - q0, x);
    }
    forall y, j, x | 0 <= y < c.slices && 0 <= j < k1 - k0 && 0 <= x < c.d
      ensures GradK(part, g)(y, j, x) == From(dk, k0)(y, j, x) && GradV(part, g)(y, j, x) == From(dv, k0)(y, j, x)
    {
      assert dk(y, k0 + j, x) == GradK(part, g)(y, k0 + j - k0, x);
      assert dv(y, k0 + j, x) == GradV(part, g)(y, k0 + j - k0, x);
    }
    TensorInnerEqual(c.slices * c.group, q1 - q0, c.d, From(t.q, q0), GradQ(part, g), From(dq, q0));
    TensorInnerEqual(c.slices, k1 - k0, c.d, From(t.k, k0), GradK(part, g), From(dk, k0));
    TensorInnerEqual(c.slices, k1 - k0, c.d, From(t.v, k0), GradV(part, g), From(dv, k0));
  }

  /** The packed gradients are the adjoint of the packed call: the output's gradient against the
      derivative of every sequence's outputs is the three gradients against the direction. */
  lemma PackedAdjoint(c: Packed, cuQ: seq<int>, cuK: seq<int>, m: nat, t: Direction, dOut: Tensor, dq: Tensor,
                      dk: Tensor, dv: Tensor)
    requires c.Valid() && CheckOffsets(cuQ, c.tq).Accepted? && CheckOffsets(cuK, c.tk).Accepted?
    requires m == Sequences(cuQ, cuK) && PartsHold(c, cuQ, cuK, m, dOut, dq, dk, dv)
    requires forall s :: 0 <= s < m ==> PartFits(c, cuQ[s], cuQ[s + 1], cuK[s], cuK[s + 1])
    requires ZeroFrom(c.slices * c.group, c.d, cuQ[m], c.tq, dq)
    requires ZeroFrom(c.slices, c.d, cuK[m], c.tk, dk) && ZeroFrom(c.slices, c.d, cuK[m], c.tk, dv)
    ensures Sum(0, m, SequencePairings(c, cuQ, cuK, t, dOut))
         == TensorInner(c.slices * c.group, c.tq, c.d, t.q, dq) + TensorInner(c.slices, c.tk, c.d, t.k, dk)
            + TensorInner(c.slices, c.tk, c.d, t.v, dv)
  {
    hide Sum, TensorInner, QueryGrads, KeyGrads, ZeroFrom, SequencePairings, PieceInner;
    var heads := c.slices * c.group;
    var a, b := PieceInner(heads, c.d, cuQ, t.q, dq), PieceInner(c.slices, c.d, cuK, t.k, dk);
    var e := PieceInner(c.slices, c.d, cuK, t.v, dv);
    var ab: Vec := s => a(s) + b(s);
    forall s | 0 <= s < m
      ensures SequencePairings(c, cuQ, cuK, t, dOut)(s) == ab(s) + e(s)
    {
      SequenceTerm(c, cuQ, cuK, s, t, dOut, dq, dk, dv);
    }
    SumAdd(0, m, ab, e, SequencePairings(c, cuQ, cuK, t, dOut));
    SumAdd(0, m, a, b, ab);
    TensorPieces(heads, c.d, cuQ, m, c.tq, t.q, dq);
    TensorPieces(c.slices, c.d, cuK, m, c.tk, t.k, dk);
    TensorPieces(c.slices, c.d, cuK, m, c.tk, t.v, dv);
  }

  lemma SequenceTerm(c: Packed, cuQ: seq<int>, cuK: seq<int>, s: nat, t: Direction, dOut: Tensor, dq: Tensor,
                     dk: Tensor, dv: Tensor)
    requires c.Valid() && s + 1 < |cuQ| && s + 1 < |cuK| && c.Inside(cuQ[s], cuQ[s + 1], cuK[s], cuK[s + 1])
    requires QueryGrads(c, cuQ[s], cuQ[s + 1], cuK[s], cuK[s + 1], dOut, dq)
    requires KeyGrads(c, cuQ[s], cuQ[s + 1], cuK[s], cuK[s + 1], dOut, dk, dv)
    ensures SequencePairings(c, cuQ, cuK, t, dOut)(s)
         == PieceInner(c.slices * c.group, c.d, cuQ, t.q, dq)(s) + PieceInner(c.slices, c.d, cuK, t.k, dk)(s)
            + PieceInner(c.slices, c.d, cuK, t.v, dv)(s)
  {
    hide Sum, TensorInner, QueryGrads, KeyGrads, SequencePairing;
    SequenceAdjoint(c, cuQ[s], cuQ[s + 1], cuK[s], cuK[s + 1], t, dOut, dq, dk, dv);
  }
}
