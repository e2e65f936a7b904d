/** The recurrent step: one column of a sequence's state in registers, its rows shared out among
    simdgroups, carried through the sequence's tokens. */
module DeltaStep {
  import opened Sums
  import opened Vectors
  import opened Analysis
  import opened Integers
  import opened GatedDelta
  import opened DeltaInputs
  import opened DeltaScan

  /** The first row of simdgroup w: r of them each, fewer at the end. */
  function RowsFrom(dk: nat, r: nat, w: int): int { MinInt(FirstRow(r, w), dk) }

  function RowBounds(dk: nat, r: nat): int -> int { w => RowsFrom(dk, r, w) }

  function FirstRow(r: nat, w: int): int { w * r }

  function RowsPer(dk: nat, groups: nat): nat
    requires groups > 0
  {
    (dk + groups - 1) / groups
  }

  lemma RowsCover(dk: nat, groups: nat)
    requires groups > 0
    ensures FirstRow(RowsPer(dk, groups), 0) == 0 && FirstRow(RowsPer(dk, groups), groups) >= dk
    ensures RowsFrom(dk, RowsPer(dk, groups), 0) == 0 && RowsFrom(dk, RowsPer(dk, groups), groups) == dk
  {
    var r := RowsPer(dk, groups);
    assert dk + groups - 1 == groups * r + (dk + groups - 1) % groups;
  }

  lemma RowsOrdered(dk: nat, r: nat, w: nat)
    ensures FirstRow(r, w + 1) == FirstRow(r, w) + r && FirstRow(r, w) >= 0
    ensures RowsFrom(dk, r, w) <= RowsFrom(dk, r, w + 1)
  {
  }

  /** A simdgroup's lanes take every LANES-th entry and add up. */
  method LaneSquares(dk: nat, row: Vec) returns (total: real)
    ensures total == Sum(0, dk, Times(row, row))
  {
    hide Sum, Times;
    total := 0.0;
    ghost var parts: Vec := lane => Sum(0, dk, Strand(0, LANES, lane, Times(row, row)));
    SumEmpty(0, parts);
    for lane := 0 to LANES
      invariant total == Sum(0, lane, parts)
    {
      var sum := LaneSquare(dk, row, lane);
      SumNext(0, lane, parts);
      total := total + sum;
    }
    Strands(0, dk, LANES, Times(row, row), parts);
  }

  method LaneSquare(dk: nat, row: Vec, lane: nat) returns (sum: real)
    requires lane < LANES
    ensures sum == Sum(0, dk, Strand(0, LANES, lane, Times(row, row)))
  {
    hide Sum;
    var i := lane;
    sum := 0.0;
    StrandStart(0, LANES, lane, Times(row, row), MinInt(lane, dk));
    while i < dk
      invariant i % LANES == lane
      invariant sum == Sum(0, MinInt(i, dk), Strand(0, LANES, lane, Times(row, row)))
      decreases dk - i
    {
      StrandStep(0, LANES, lane, Times(row, row), i, dk);
      sum := sum + row(i) * row(i);
      i := i + LANES;
    }
  }

  /** A simdgroup decays its rows and takes their share of S^T k. */
  method DecayRows(state: array<real>, decay: real, key: Vec, row0: nat, r: nat, ghost decayed: Vec) returns (kv: real)
    requires forall x :: row0 <= x < row0 + r && x < state.Length ==> decayed(x) == decay * state[x]
    modifies state
    ensures forall x :: 0 <= x < state.Length ==>
              state[x] == if row0 <= x < row0 + r then decayed(x) else old(state[x])
    ensures kv == Sum(MinInt(row0, state.Length), MinInt(row0 + r, state.Length), Times(decayed, key))
  {
    hide Sum;
    var dk := state.Length;
    kv := 0.0;
    SumEmpty(MinInt(row0, dk), Times(decayed, key));
    for i := 0 to r
      invariant forall x :: 0 <= x < dk ==> state[x] == if row0 <= x < row0 + i then decayed(x) else old(state[x])
      invariant kv == Sum(MinInt(row0, dk), MinInt(row0 + i, dk), Times(decayed, key))
    {
      var row := row0 + i;
      if row < dk {
        state[row] := state[row] * decay;
        SumNext(row0, row, Times(decayed, key));
        kv := kv + state[row] * key(row);
      }
    }
  }

  /** It corrects them along the key and takes their share of S^T q. */
  method CorrectRows(state: array<real>, key: Vec, kd: real, query: Vec, row0: nat, r: nat, ghost next: Vec)
    returns (o: real)
    requires forall x :: row0 <= x < row0 + r && x < state.Length ==> next(x) == state[x] + key(x) * kd
    modifies state
    ensures forall x :: 0 <= x < state.Length ==>
              state[x] == if row0 <= x < row0 + r then next(x) else old(state[x])
    ensures o == Sum(MinInt(row0, state.Length), MinInt(row0 + r, state.Length), Times(next, query))
  {
    hide Sum;
    var dk := state.Length;
    o := 0.0;
    SumEmpty(MinInt(row0, dk), Times(next, query));
    for i := 0 to r
      invariant forall x :: 0 <= x < dk ==> state[x] == if row0 <= x < row0 + i then next(x) else old(state[x])
      invariant o == Sum(MinInt(row0, dk), MinInt(row0 + i, dk), Times(next, query))
    {
      var row := row0 + i;
      if row < dk {
        state[row] := state[row] + key(row) * kd;
        SumNext(row0, row, Times(next, query));
        o := o + state[row] * query(row);
      }
    }
  }

  /** The simdgroups' shares of a product with the state. */
  function Shares(dk: nat, r: nat, f: Vec): Vec { w => Sum(RowsFrom(dk, r, w), RowsFrom(dk, r, w + 1), f) }

  lemma ShareIs(dk: nat, r: nat, f: Vec, w: nat)
    ensures Shares(dk, r, f)(w) == Sum(MinInt(FirstRow(r, w), dk), MinInt(FirstRow(r, w + 1), dk), f)
  {
    hide Sum, FirstRow;
  }

  lemma SharesMeet(dk: nat, groups: nat, f: Vec)
    requires groups > 0
    ensures Sum(0, groups, Shares(dk, RowsPer(dk, groups), f)) == Sum(0, dk, f)
  {
    hide Sum, RowsFrom, RowsPer, FirstRow;
    var r := RowsPer(dk, groups);
    RowsCover(dk, groups);
    forall w | 0 <= w < groups
      ensures RowBounds(dk, r)(w) <= RowBounds(dk, r)(w + 1)
      ensures Shares(dk, r, f)(w) == Sum(RowBounds(dk, r)(w), RowBounds(dk, r)(w + 1), f)
    {
      RowsOrdered(dk, r, w);
    }
    SumPieces(groups, RowBounds(dk, r), f, Shares(dk, r, f));
  }

  lemma Distributed(f: real, a: real, b: real)
    ensures (a + b) * f == a * f + b * f
  {
  }

  /** The state decayed, and its product with the key: the simdgroups' shares, scaled, added. */
  method DecayAll(state: array<real>, decay: real, key: Vec, factor: real, groups: nat, ghost decayed: Vec)
    returns (total: real)
    requires groups > 0 && forall x :: 0 <= x < state.Length ==> decayed(x) == decay * state[x]
    modifies state
    ensures Holds(state.Length, state[..], decayed)
    ensures total == factor * Dot(state.Length, decayed, key)
  {
    hide Sum, RowsFrom, RowsPer, FirstRow, Dot, Shares;
    var dk, r := state.Length, RowsPer(state.Length, groups);
    RowsCover(dk, groups);
    ghost var parts := Shares(dk, r, Times(decayed, key));
    total := 0.0;
    SumEmpty(0, parts);
    for w := 0 to groups
      invariant FirstRow(r, w) >= 0
      invariant forall x :: 0 <= x < dk ==> state[x] == if x < FirstRow(r, w) then decayed(x) else old(state[x])
      invariant total == Sum(0, w, parts) * factor
    {
      RowsOrdered(dk, r, w);
      var row0 := FirstRow(r, w);
      var share := DecayRows(state, decay, key, row0, r, decayed);
      ShareIs(dk, r, Times(decayed, key), w);
      SumNext(0, w, parts);
      Distributed(factor, Sum(0, w, parts), share);
      total := total + share * factor;
    }
    SharesMeet(dk, groups, Times(decayed, key));
    DotIs(dk, decayed, key);
  }

  /** The state corrected, and its product with the query. */
  method CorrectAll(state: array<real>, key: Vec, kd: real, query: Vec, factor: real, groups: nat, ghost next: Vec)
    returns (total: real)
    requires groups > 0 && forall x :: 0 <= x < state.Length ==> next(x) == state[x] + key(x) * kd
    modifies state
    ensures Holds(state.Length, state[..], next)
    ensures total == factor * Dot(state.Length, next, query)
  {
    hide Sum, RowsFrom, RowsPer, FirstRow, Dot, Shares;
    var dk, r := state.Length, RowsPer(state.Length, groups);
    RowsCover(dk, groups);
    ghost var parts := Shares(dk, r, Times(next, query));
    total := 0.0;
    SumEmpty(0, parts);
    for w := 0 to groups
      invariant FirstRow(r, w) >= 0
      invariant forall x :: 0 <= x < dk ==> state[x] == if x < FirstRow(r, w) then next(x) else old(state[x])
      invariant total == Sum(0, w, parts) * factor
    {
      RowsOrdered(dk, r, w);
      var row0 := FirstRow(r, w);
      var share := CorrectRows(state, key, kd, query, row0, r, next);
      ShareIs(dk, r, Times(next, query), w);
      SumNext(0, w, parts);
      Distributed(factor, Sum(0, w, parts), share);
      total := total + share * factor;
    }
    SharesMeet(dk, groups, Times(next, query));
    DotIs(dk, next, query);
  }

  /** The factors of the query and the key. */
  method Scales(c: Inputs, t: int) returns (qScale: real, kScale: real)
    requires c.Laws()
    ensures qScale == c.QueryScale(t) && kScale == c.KeyScale(t)
  {
    hide Sum, Inputs.Laws, Inputs.Inverse;
    qScale, kScale := c.scale, 1.0;
    if c.l2norm {
      var qSum := LaneSquares(c.dk, Row(c.q, t));
      var kSum := LaneSquares(c.dk, Row(c.k, t));
      RootPositive(c, Row(c.q, t));
      RootPositive(c, Row(c.k, t));
      qScale := qScale * (1.0 / c.sqrt(qSum + EPS));
      kScale := 1.0 / c.sqrt(kSum + EPS);
    }
  }

  /** One token: the rule's next state in place, and its output. */
  method TokenStep(c: Inputs, t: int, state: array<real>, groups: nat, ghost s: Vec) returns (out: real)
    requires c.Laws() && groups > 0 && state.Length == c.dk && Holds(c.dk, state[..], s)
    modifies state
    ensures Holds(c.dk, state[..], c.Rule().Next(t, s))
    ensures out == Dot(c.dk, c.Rule().Next(t, s), Row(c.Rule().q, t))
  {
    hide Sum, Dot, Inputs.Laws, Inputs.QueryScale, Inputs.KeyScale, Tokens.Correction, Tokens.Decayed, Tokens.Next;
    var qScale, kScale := Scales(c, t);
    ghost var rule := c.Rule();
    ghost var decayed, next := rule.Decayed(t, s), rule.Next(t, s);
    DecayedIs(rule, t, s);
    var kvMem := DecayAll(state, c.e.exp(c.g(t)), Row(c.k, t), kScale, groups, decayed);
    var kd := kScale * c.beta(t) * (c.v(t) - kvMem);
    NextOf(c, t, s, kvMem, kd);
    out := CorrectAll(state, Row(c.k, t), kd, Row(c.q, t), qScale, groups, next);
    OutOf(c, t, next);
  }

  lemma RootPositive(c: Inputs, row: Vec)
    requires c.Laws()
    ensures c.sqrt(c.Square(row) + EPS) > 0.0 && c.Inverse(row) == 1.0 / c.sqrt(c.Square(row) + EPS)
  {
    hide Sum;
    SquareNonNegative(c.dk, row);
  }

  lemma DecayedIs(c: Tokens, t: int, s: Vec)
    ensures forall x :: c.Decayed(t, s)(x) == c.e.exp(c.g(t)) * s(x)
  {
  }

  /** The correction of the raw key is the rule's of its scaled one. */
  lemma NextOf(c: Inputs, t: int, s: Vec, kvMem: real, kd: real)
    requires c.Laws() && kvMem == c.KeyScale(t) * Dot(c.dk, c.Rule().Decayed(t, s), Row(c.k, t))
    requires kd == c.KeyScale(t) * c.beta(t) * (c.v(t) - kvMem)
    ensures forall x :: c.Rule().Next(t, s)(x) == c.Rule().Decayed(t, s)(x) + Row(c.k, t)(x) * kd
  {
    hide Sum, Dot, Inputs.KeyScale, Tokens.Decayed;
    var rule := c.Rule();
    var decayed := rule.Decayed(t, s);
    DotScale(c.dk, decayed, c.KeyScale(t), Row(c.k, t), Row(rule.k, t));
    assert rule.Correction(t, decayed) == c.beta(t) * (c.v(t) - kvMem);
    forall x
      ensures rule.Next(t, s)(x) == decayed(x) + Row(c.k, t)(x) * kd
    {
      ScaledKey(c.KeyScale(t), c.k(t, x), c.beta(t), c.v(t) - kvMem);
    }
  }

  lemma ScaledKey(f: real, k: real, beta: real, d: real)
    ensures f * k * (beta * d) == k * (f * beta * d)
  {
    var bd := beta * d;
    assert f * k * bd == k * (f * bd);
    ThreeFactors(f, beta, d);
  }

  lemma OutOf(c: Inputs, t: int, next: Vec)
    requires c.Laws()
    ensures c.QueryScale(t) * Dot(c.dk, next, Row(c.q, t)) == Dot(c.dk, next, Row(c.Rule().q, t))
  {
    hide Sum, Dot, Inputs.QueryScale;
    DotScale(c.dk, next, c.QueryScale(t), Row(c.q, t), Row(c.Rule().q, t));
  }

  /** A sequence's tokens from..to, its state carried through them and kept in place. */
  method Tokenwise(c: Inputs, from: nat, to: nat, state: array<real>, groups: nat, ghost s0: Vec)
    returns (outs: seq<real>)
    requires c.Laws() && groups > 0 && from <= to && state.Length == c.dk && Holds(c.dk, state[..], s0)
    modifies state
    ensures |outs| == to - from && forall u :: 0 <= u < |outs| ==> outs[u] == c.Rule().From(from).Out(s0, u)
    ensures Holds(c.dk, state[..], c.Rule().From(from).State(s0, to - from))
  {
    hide Sum, Dot, Inputs.Laws, Inputs.Rule, Tokens.From, Tokens.Next, Tokens.State, Tokens.Out;
    outs := [];
    ghost var rule := c.Rule().From(from);
    StateAtZero(rule, s0);
    for t := from to to
      invariant |outs| == t - from && forall u :: 0 <= u < |outs| ==> outs[u] == rule.Out(s0, u)
      invariant Holds(c.dk, state[..], rule.State(s0, t - from))
    {
      ghost var s := rule.State(s0, t - from);
      var out := TokenStep(c, t, state, groups, s);
      StepFrom(c, from, t, s0, out);
      outs := outs + [out];
    }
  }

  lemma StateAtZero(c: Tokens, s0: Vec)
    ensures c.State(s0, 0) == s0
  {
  }

  lemma StepFrom(c: Inputs, from: nat, t: nat, s0: Vec, out: real)
    requires c.Laws() && from <= t
    requires var s := c.Rule().From(from).State(s0, t - from);
             out == Dot(c.dk, c.Rule().Next(t, s), Row(c.Rule().q, t))
    ensures var rule, s := c.Rule().From(from), c.Rule().From(from).State(s0, t - from);
            SameState(c.dk, c.Rule().Next(t, s), rule.State(s0, t - from + 1)) && out == rule.Out(s0, t - from)
  {
    hide Sum, Dot, Tokens.Next;
    var a := c.Rule();
    var b := a.From(from);
    var s := b.State(s0, t - from);
    assert from + (t - from) == t;
    NextAlike(a, b, from, t - from + 1, s, s, t - from);
    DotEqual(c.dk, a.Next(t, s), Row(a.q, t), b.Next(t - from, s), Row(b.q, t - from));
  }
}
