/** Packed variable-length sequences: the offsets checked, each sequence a call on it alone, the
    results joined, and nothing for the queries past the last offset. */
module AttentionPacked {
  import opened Sums
  import opened Analysis
  import opened Integers
  import opened AttentionBand
  import opened AttentionContract
  import opened AttentionForward
  import opened AttentionBackward

  /** A packed batch of one: `tq` queries and `tk` keys, the sequences' own lengths in the offsets. */
  datatype Packed = Packed(e: Exponential, tq: nat, tk: nat, left: Option<nat>, right: Option<nat>,
                           slices: nat, group: nat, d: nat, scale: real, q: Tensor, k: Tensor, v: Tensor) {

    ghost predicate Valid() { e.Laws() && group > 0 && slices > 0 && Geometry(tq, tk, left, right).Valid() }

    /** The queries q0..q1 and the keys k0..k1 are some of the batch's. */
    predicate Inside(q0: int, q1: int, k0: int, k1: int) { 0 <= q0 <= q1 <= tq && 0 <= k0 <= k1 <= tk }

    /** The call on the queries q0..q1 and the keys k0..k1 alone. */
    function Part(q0: int, q1: int, k0: int, k1: int): Call
      requires q0 <= q1 && k0 <= k1
    {
      Call(e, Geometry(q1 - q0, k1 - k0, left, right), None, slices, group, slices * group, d, scale,
           From(q, q0), From(k, k0), From(v, k0))
    }
  }

  /** t from its place `at` on. */
  function From(t: Tensor, at: int): Tensor { (n, i, x) => t(n, at + i, x) }

  datatype Offsets = Accepted(at: seq<int>) | Refused

  /** The check of a packed call's bounds: they begin with 0, never fall, and stay within t. */
  function CheckOffsets(values: seq<int>, t: int): (r: Offsets)
    ensures r.Accepted? <==> (values != [] && values[0] == 0 && values[|values| - 1] <= t
                              && forall a, b :: 0 <= a < b < |values| ==> values[a] <= values[b])
    ensures r.Accepted? ==> r.at == values
  {
    if values != [] && values[0] == 0 && NotDecreasing(values) && values[|values| - 1] <= t
    then Accepted(values) else Refused
  }

  /** Each neighbour at least the one before it. */
  predicate NotDecreasing(values: seq<int>)
    ensures NotDecreasing(values) <==> forall a, b :: 0 <= a < b < |values| ==> values[a] <= values[b]
  {
    |values| <= 1 || (NotDecreasing(values[..|values| - 1]) && values[|values| - 2] <= values[|values| - 1])
  }

  /** What accepted offsets are. */
  lemma OffsetsAre(cu: seq<int>, t: int)
    ensures CheckOffsets(cu, t).Accepted? ==>
      && CheckOffsets(cu, t).at == cu && |cu| > 0 && cu[0] == 0
      && (forall a, b :: 0 <= a <= b < |cu| ==> 0 <= cu[a] <= cu[b] <= t)
  {
  }

  datatype Result = Attended(rows: nat, out: Tensor, lse: (int, int) -> Extended) | Rejected

  function JoinLse(before: (int, int) -> Extended, lo: int, hi: int, block: (int, int) -> Extended)
    : (int, int) -> Extended
  {
    (n, i) => if lo <= i < hi then block(n, i) else before(n, i)
  }

  function NoLse(): (int, int) -> Extended { (n, i) => NegInf }

  function Shifted3(t: Tensor, at: int): Tensor { (n, i, x) => t(n, i - at, x) }

  function RowLse(e: Exponential, m: Mat, s: Mat, at: int): (int, int) -> Extended {
    (n, i) => LseFrom(e, m(n, i - at), s(n, i - at))
  }

  /** Row i holds what the part, whose first query is `at`, gives there. */
  ghost predicate RowIs(part: Call, at: int, n: int, i: int, out: Tensor, lse: (int, int) -> Extended)
    requires part.Valid()
  {
    && (forall x :: 0 <= x < part.d ==> out(n, i, x) == part.Out(n, i - at, x))
    && lse(n, i) == part.Lse(n, i - at)
  }

  /** The rows q0..q1 hold the attention of the part on its own. */
  ghost predicate PartHolds(c: Packed, q0: int, q1: int, k0: int, k1: int, out: Tensor, lse: (int, int) -> Extended)
    requires c.Valid() && c.Inside(q0, q1, k0, k1)
  {
    forall n, i :: 0 <= n < c.slices * c.group && q0 <= i < q1 ==> RowIs(c.Part(q0, q1, k0, k1), q0, n, i, out, lse)
  }

  /** The same, where the sums behind the sequence's picks fit. */
  ghost predicate PartGiven(c: Packed, q0: int, q1: int, k0: int, k1: int, out: Tensor, lse: (int, int) -> Extended)
    requires c.Valid() && c.Inside(q0, q1, k0, k1)
  {
    c.Part(q0, q1, k0, k1).geom.KeysAllFit() ==> PartHolds(c, q0, q1, k0, k1, out, lse)
  }

  ghost predicate RowEmpty(d: int, n: int, i: int, out: Tensor, lse: (int, int) -> Extended) {
    (forall x :: 0 <= x < d ==> out(n, i, x) == 0.0) && lse(n, i) == NegInf
  }

  /** The rows lo..hi are zeros with a log-sum-exp of -inf. */
  ghost predicate Empty(c: Packed, lo: int, hi: int, out: Tensor, lse: (int, int) -> Extended) {
    forall n, i :: 0 <= n < c.slices * c.group && lo <= i < hi ==> RowEmpty(c.d, n, i, out, lse)
  }

  /** What attention over no key is: a row of zeros with -inf. */
  lemma NoKeysRow(part: Call, at: int, n: int, i: int, out: Tensor, lse: (int, int) -> Extended)
    requires part.Valid() && part.geom.tk == 0 && RowEmpty(part.d, n, i, out, lse)
    ensures RowIs(part, at, n, i, out, lse)
  {
    hide Sum, Call.Out;
    assert !part.SeesKey(n, i - at);
    forall x | 0 <= x < part.d
      ensures out(n, i, x) == part.Out(n, i - at, x)
    {
      OutUnseen(part, n, i - at, x);
    }
  }

  /** A row of the part's forward pass, moved to its place. */
  lemma PassRow(part: Call, at: int, n: int, i: int, o: Tensor, m: Mat, s: Mat)
    requires part.Valid() && RowDone(part, n, i - at, o, m, s)
    ensures RowIs(part, at, n, i, Shifted3(o, at), RowLse(part.e, m, s, at))
  {
    hide Sum, Call.Out, Call.Lse;
  }

  /** One sequence's rows, by a call on it alone. */
  method Sequence(c: Packed, q0: nat, q1: nat, k0: nat, k1: nat, qb: nat, kb: nat)
    returns (out: Tensor, lse: (int, int) -> Extended)
    requires c.Valid() && qb > 0 && kb > 0 && q0 < q1 && c.Inside(q0, q1, k0, k1)
    ensures PartGiven(c, q0, q1, k0, k1, out, lse)
  {
    hide Sum, RowIs, RowDone, RowTaken, Geometry.KeysAllFit;
    var part := c.Part(q0, q1, k0, k1);
    assert c.slices * c.group > 0;
    if k1 == k0 {
      out, lse := ZeroTensor(), NoLse();
      forall n, i | 0 <= n < c.slices * c.group && q0 <= i < q1
        ensures RowIs(part, q0, n, i, out, lse)
      {
        NoKeysRow(part, q0, n, i, out, lse);
      }
    } else {
      var o, m, s := BlockedForward(part, qb, kb);
      out, lse := Shifted3(o, q0), RowLse(c.e, m, s, q0);
      forall n, i | part.geom.KeysAllFit() && 0 <= n < c.slices * c.group && q0 <= i < q1
        ensures RowIs(part, q0, n, i, out, lse)
      {
        PassRow(part, q0, n, i, o, m, s);
      }
    }
  }

  lemma RowCopied(part: Call, at: int, n: int, i: int, out: Tensor, lse: (int, int) -> Extended, out': Tensor,
                  lse': (int, int) -> Extended)
    requires part.Valid() && RowIs(part, at, n, i, out, lse)
    requires lse'(n, i) == lse(n, i) && forall x :: out'(n, i, x) == out(n, i, x)
    ensures RowIs(part, at, n, i, out', lse')
  {
    hide Sum, Call.Out, Call.Lse;
  }

  lemma JoinKeepsParts(c: Packed, q0: int, q1: int, k0: int, k1: int, lo: int, hi: int, out: Tensor,
                       lse: (int, int) -> Extended, block: Tensor, blockLse: (int, int) -> Extended)
    requires c.Valid() && c.Inside(q0, q1, k0, k1) && q1 <= lo && PartGiven(c, q0, q1, k0, k1, out, lse)
    ensures PartGiven(c, q0, q1, k0, k1, Join(out, lo, hi, block), JoinLse(lse, lo, hi, blockLse))
  {
    hide RowIs, Geometry.KeysAllFit;
    forall n, i | c.Part(q0, q1, k0, k1).geom.KeysAllFit() && 0 <= n < c.slices * c.group && q0 <= i < q1
      ensures RowIs(c.Part(q0, q1, k0, k1), q0, n, i, Join(out, lo, hi, block), JoinLse(lse, lo, hi, blockLse))
    {
      RowCopied(c.Part(q0, q1, k0, k1), q0, n, i, out, lse, Join(out, lo, hi, block), JoinLse(lse, lo, hi, blockLse));
    }
  }

  lemma JoinHoldsPart(c: Packed, q0: int, q1: int, k0: int, k1: int, out: Tensor,
                      lse: (int, int) -> Extended, block: Tensor, blockLse: (int, int) -> Extended)
    requires c.Valid() && c.Inside(q0, q1, k0, k1) && PartGiven(c, q0, q1, k0, k1, block, blockLse)
    ensures PartGiven(c, q0, q1, k0, k1, Join(out, q0, q1, block), JoinLse(lse, q0, q1, blockLse))
  {
    hide RowIs, Geometry.KeysAllFit;
    forall n, i | c.Part(q0, q1, k0, k1).geom.KeysAllFit() && 0 <= n < c.slices * c.group && q0 <= i < q1
      ensures RowIs(c.Part(q0, q1, k0, k1), q0, n, i, Join(out, q0, q1, block), JoinLse(lse, q0, q1, blockLse))
    {
      RowCopied(c.Part(q0, q1, k0, k1), q0, n, i, block, blockLse, Join(out, q0, q1, block),
                JoinLse(lse, q0, q1, blockLse));
    }
  }

  /** The packed call. It is refused exactly when the offsets are (CheckOffsets), when the queries' and
      the keys' do not number the same, or when there is no query and so nothing to join; else it has
      tq rows, each sequence's those of a call on it alone, and zeros with -inf past the last offset. */
  method Dispatch(c: Packed, cuQ: seq<int>, cuK: seq<int>, qb: nat, kb: nat) returns (r: Result)
    requires c.Valid() && qb > 0 && kb > 0
    ensures r.Attended?
       <==> CheckOffsets(cuQ, c.tq).Accepted? && CheckOffsets(cuK, c.tk).Accepted? && |cuQ| == |cuK| && c.tq > 0
    ensures r.Attended? ==> r.rows == c.tq
    ensures r.Attended? ==> forall s :: 0 <= s < |cuQ| - 1 ==>
              cuQ[s] <= cuQ[s + 1] && cuK[s] <= cuK[s + 1]
              && PartGiven(c, cuQ[s], cuQ[s + 1], cuK[s], cuK[s + 1], r.out, r.lse)
    ensures r.Attended? ==> Empty(c, cuQ[|cuQ| - 1], c.tq, r.out, r.lse)
  {
    hide Sum, PartGiven, CheckOffsets;
    OffsetsAre(cuQ, c.tq);
    OffsetsAre(cuK, c.tk);
    var cq, ck := CheckOffsets(cuQ, c.tq), CheckOffsets(cuK, c.tk);
    if cq.Refused? || ck.Refused? || |cq.at| != |ck.at| {
      return Rejected;
    }
    var rows, pieces, out, lse := 0, 0, ZeroTensor(), NoLse();
    for s := 0 to |cuQ| - 1
      invariant rows == cuQ[s] && (pieces > 0 <==> rows > 0)
      invariant forall t :: 0 <= t < s ==> PartGiven(c, cuQ[t], cuQ[t + 1], cuK[t], cuK[t + 1], out, lse)
    {
      var q0, q1, k0, k1 := cuQ[s], cuQ[s + 1], cuK[s], cuK[s + 1];
      if q1 == q0 {
        NoRows(c, q0, k0, k1, out, lse);
        continue;
      }
      var block, blockLse := Sequence(c, q0, q1, k0, k1, qb, kb);
      forall t | 0 <= t < s
        ensures PartGiven(c, cuQ[t], cuQ[t + 1], cuK[t], cuK[t + 1], Join(out, q0, q1, block),
                          JoinLse(lse, q0, q1, blockLse))
      {
        JoinKeepsParts(c, cuQ[t], cuQ[t + 1], cuK[t], cuK[t + 1], q0, q1, out, lse, block, blockLse);
      }
      JoinHoldsPart(c, q0, q1, k0, k1, out, lse, block, blockLse);
      out, lse := Join(out, q0, q1, block), JoinLse(lse, q0, q1, blockLse);
      rows, pieces := rows + (q1 - q0), pieces + 1;
    }
    var last := cuQ[|cuQ| - 1];
    if last < c.tq {
      var tail, tailLse := Join(out, last, c.tq, ZeroTensor()), JoinLse(lse, last, c.tq, NoLse());
      forall t | 0 <= t < |cuQ| - 1
        ensures PartGiven(c, cuQ[t], cuQ[t + 1], cuK[t], cuK[t + 1], tail, tailLse)
      {
        JoinKeepsParts(c, cuQ[t], cuQ[t + 1], cuK[t], cuK[t + 1], last, c.tq, out, lse, ZeroTensor(), NoLse());
      }
      out, lse, rows, pieces := tail, tailLse, rows + (c.tq - last), pieces + 1;
    }
    if pieces == 0 {
      return Rejected;
    }
    r := Attended(rows, out, lse);
  }

  lemma NoRows(c: Packed, q0: int, k0: int, k1: int, out: Tensor, lse: (int, int) -> Extended)
    requires c.Valid() && c.Inside(q0, q0, k0, k1)
    ensures PartGiven(c, q0, q0, k0, k1, out, lse)
  {
  }

  // ----- in terms of the batch's own tensors -----

  /** Query i of the batch against the keys from k0 on, head n. */
  function PackedScores(c: Packed, n: int, i: int, k0: int): Vec
    requires c.group > 0
  {
    j => c.scale * Sum(0, c.d, PackedProducts(c, n, i, k0 + j))
  }

  function PackedProducts(c: Packed, n: int, i: int, j: int): Vec
    requires c.group > 0
  {
    y => c.q(n, i, y) * c.k(n / c.group, j, y)
  }

  function PackedValues(c: Packed, n: int, k0: int, x: int): Vec
    requires c.group > 0
  {
    j => c.v(n / c.group, k0 + j, x)
  }

  function EveryKey(): int -> bool { j => true }

  /** A sequence's rows: query q0 + i's output is the contract's attention over the sequence's keys
      k0..k1, as the options allow them at the sequence's own lengths, and so is its log-sum-exp. */
  lemma PackedIsContract(c: Packed, options: Options, q0: int, q1: int, k0: int, k1: int, n: int, i: int, out: Tensor,
                         lse: (int, int) -> Extended)
    requires c.Valid() && c.Inside(q0, q1, k0, k1) && PartGiven(c, q0, q1, k0, k1, out, lse)
    requires Reach(options) == (c.left, c.right) && 0 <= n < c.slices * c.group && 0 <= i < q1 - q0
    requires Geometry(q1 - q0, k1 - k0, c.left, c.right).KeysAllFit()
    requires Geometry(q1 - q0, k1 - k0, c.left, c.right).FitsKernel()
    ensures forall x :: 0 <= x < c.d ==>
      out(n, q0 + i, x) == Attend(c.e, k1 - k0, Allowed(options, q1 - q0, k1 - k0, i, EveryKey()),
                                  PackedScores(c, n, q0 + i, k0), PackedValues(c, n, k0, x))
    ensures lse(n, q0 + i) == AttendLse(c.e, k1 - k0, Allowed(options, q1 - q0, k1 - k0, i, EveryKey()),
                                        PackedScores(c, n, q0 + i, k0))
  {
    hide Sum, Attend, AttendLse, Reach, Call.Out, Call.Lse, Options.Allows, Geometry.FitsKernel;
    var part := c.Part(q0, q1, k0, k1);
    var vis := Allowed(options, q1 - q0, k1 - k0, i, EveryKey());
    assert RowIs(part, q0, n, q0 + i, out, lse) && q0 + i - q0 == i;
    PackedScoresAre(c, q0, q1, k0, k1, n, i);
    LseIsContract(part, options, n, i);
    var part' := Allowed(options, q1 - q0, k1 - k0, i, KeptKeys(part, n));
    AttendEqual(c.e, k1 - k0, part', part.Scores(n, i), part.Scores(n, i), vis, PackedScores(c, n, q0 + i, k0),
                PackedScores(c, n, q0 + i, k0));
    forall x | 0 <= x < c.d
      ensures out(n, q0 + i, x) == Attend(c.e, k1 - k0, vis, PackedScores(c, n, q0 + i, k0), PackedValues(c, n, k0, x))
    {
      OutIsContract(part, options, n, i, x);
      AttendEqual(c.e, k1 - k0, part', part.Scores(n, i), j => part.v(n / part.group, j, x), vis,
                  PackedScores(c, n, q0 + i, k0), PackedValues(c, n, k0, x));
    }
  }

  lemma PackedScoresAre(c: Packed, q0: int, q1: int, k0: int, k1: int, n: int, i: int)
    requires c.Valid() && c.Inside(q0, q1, k0, k1)
    ensures forall j :: c.Part(q0, q1, k0, k1).Scores(n, i)(j) == PackedScores(c, n, q0 + i, k0)(j)
  {
    hide Sum;
    var part := c.Part(q0, q1, k0, k1);
    forall j
      ensures part.Scores(n, i)(j) == PackedScores(c, n, q0 + i, k0)(j)
    {
      SumEqual(0, c.d, part.Products(n, i, j), PackedProducts(c, n, q0 + i, k0 + j));
    }
  }

  // ----- no sequence reads another -----

  /** The two batches agree on the queries q0..q1 and on the keys and values k0..k1. */
  ghost predicate AgreeOn(a: Packed, b: Packed, q0: int, q1: int, k0: int, k1: int) {
    && b == a.(q := b.q, k := b.k, v := b.v)
    && (forall n, i, x :: q0 <= i < q1 ==> a.q(n, i, x) == b.q(n, i, x))
    && (forall y, j, x :: k0 <= j < k1 ==> a.k(y, j, x) == b.k(y, j, x) && a.v(y, j, x) == b.v(y, j, x))
  }

  lemma SameWeights(pa: Call, pb: Call, n: int, i: int, j: int)
    requires pa.Valid() && pb == pa.(q := pb.q, k := pb.k, v := pb.v)
    requires forall x :: pa.q(n, i, x) == pb.q(n, i, x)
    requires forall x :: pa.k(n / pa.group, j, x) == pb.k(n / pa.group, j, x)
    ensures pa.Score(n, i, j) == pb.Score(n, i, j) && pa.Weights(n, i)(j) == pb.Weights(n, i)(j)
  {
    SumEqual(0, pa.d, pa.Products(n, i, j), pb.Products(n, i, j));
  }

  /** A sequence's result is the same whatever the other sequences hold. */
  lemma SequencesAreIndependent(a: Packed, b: Packed, q0: int, q1: int, k0: int, k1: int, n: int, i: int, x: int)
    requires a.Valid() && b.Valid() && q0 <= i < q1 && a.Inside(q0, q1, k0, k1) && AgreeOn(a, b, q0, q1, k0, k1)
    ensures a.Part(q0, q1, k0, k1).Out(n, i - q0, x) == b.Part(q0, q1, k0, k1).Out(n, i - q0, x)
    ensures a.Part(q0, q1, k0, k1).Lse(n, i - q0) == b.Part(q0, q1, k0, k1).Lse(n, i - q0)
  {
    hide Sum, Call.Score;
    var pa, pb, at := a.Part(q0, q1, k0, k1), b.Part(q0, q1, k0, k1), i - q0;
    assert a.slices * a.group > 0;
    forall j | 0 <= j < k1 - k0
      ensures pa.Score(n, at, j) == pb.Score(n, at, j) && pa.Weights(n, at)(j) == pb.Weights(n, at)(j)
    {
      SameWeights(pa, pb, n, at, j);
    }
    SumEqual(0, k1 - k0, pa.Weights(n, at), pb.Weights(n, at));
    forall j | 0 <= j < k1 - k0
      ensures pa.ValueTerms(n, at, x)(j) == pb.ValueTerms(n, at, x)(j)
    {
      assert pa.Score(n, at, j) == pb.Score(n, at, j);
      assert pa.P(n, at, j) == pb.P(n, at, j);
    }
    SumEqual(0, k1 - k0, pa.ValueTerms(n, at, x), pb.ValueTerms(n, at, x));
    ZPositive(pa, n, at);
    ZPositive(pb, n, at);
  }
}
