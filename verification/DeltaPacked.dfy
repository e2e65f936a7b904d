/** The gated delta rule over packed sequences, in chunks for training and token by token for decoding,
    and a decoder that continues from the states a chunked pass leaves. */
module DeltaPacked {
  import opened Sums
  import opened Analysis
  import opened Bounds
  import opened GatedDelta
  import opened DeltaInputs
  import opened DeltaScan
  import opened DeltaChunk
  import opened DeltaStep

  /** A sequence's tokens on their own. */
  function Piece(c: Inputs, from: int): Inputs {
    c.(q := (t, x) => c.q(from + t, x), k := (t, x) => c.k(from + t, x), v := t => c.v(from + t),
       g := t => c.g(from + t), beta := t => c.beta(from + t))
  }

  /** A piece is normalised as its rows are in the whole. */
  lemma PieceAlike(c: Inputs, from: int, n: int)
    requires c.Laws()
    ensures Piece(c, from).Laws() && Alike(c.Rule().From(from), Piece(c, from).Rule(), 0, n)
  {
    hide Sum;
    var p := Piece(c, from);
    forall t, x | 0 <= t < n && 0 <= x < c.dk
      ensures p.Rule().q(t, x) == c.Rule().From(from).q(0 + t, x) && p.Rule().k(t, x) == c.Rule().From(from).k(0 + t, x)
    {
      RowAlike(c, from, t);
      assert 0 + t == t;
    }
  }

  lemma RowAlike(c: Inputs, from: int, t: int)
    requires c.Laws()
    ensures Piece(c, from).QueryScale(t) == c.QueryScale(from + t) && Piece(c, from).KeyScale(t) == c.KeyScale(from + t)
  {
    hide Sum, Inputs.Laws;
    var p := Piece(c, from);
    SumEqual(0, c.dk, Vectors.Times(Row(p.q, t), Row(p.q, t)), Vectors.Times(Row(c.q, from + t), Row(c.q, from + t)));
    SumEqual(0, c.dk, Vectors.Times(Row(p.k, t), Row(p.k, t)), Vectors.Times(Row(c.k, from + t), Row(c.k, from + t)));
  }

  /** The rule's outputs and final state on tokens from..to after the state s0. */
  ghost predicate RunIs(c: Inputs, from: nat, to: nat, s0: Vec, outs: seq<real>, last: seq<real>)
    requires c.Laws() && from <= to
  {
    && |outs| == to - from && (forall u :: 0 <= u < |outs| ==> outs[u] == c.Rule().From(from).Out(s0, u))
    && Holds(c.dk, last, c.Rule().From(from).State(s0, to - from))
  }

  /** One sequence in chunks. */
  method ChunkSequence(c: Inputs, from: nat, to: nat, s0: Vec) returns (outs: seq<real>, last: seq<real>)
    requires c.Laws() && from <= to
    ensures RunIs(c, from, to, s0, outs, last)
  {
    hide Sum, Inputs.Laws, Inputs.Rule, Inputs.ChunkTokens, Piece, Tokens.From, Tokens.State, Tokens.Out;
    PieceAlike(c, from, to - from);
    ChunkTokensAre(Piece(c, from), to - from);
    var tokens := Piece(c, from).ChunkTokens();
    Shapes(c, from);
    outs, last := ChunkedRule(tokens, to - from, CHUNK, s0);
    ChunkRunIs(c, from, to, s0, outs, last);
  }

  lemma ChunkRunIs(c: Inputs, from: nat, to: nat, s0: Vec, outs: seq<real>, last: seq<real>)
    requires c.Laws() && Piece(c, from).Laws() && from <= to && |outs| == to - from
    requires Alike(c.Rule().From(from), Piece(c, from).Rule(), 0, to - from)
    requires Alike(Piece(c, from).Rule(), Piece(c, from).ChunkTokens(), 0, to - from)
    requires forall u :: 0 <= u < |outs| ==> outs[u] == Piece(c, from).ChunkTokens().Out(s0, u)
    requires Holds(c.dk, last, Piece(c, from).ChunkTokens().State(s0, to - from))
    ensures RunIs(c, from, to, s0, outs, last)
  {
    hide Sum, Inputs.Laws, Inputs.Rule, Inputs.ChunkTokens, Piece, Tokens.From, Tokens.State, Tokens.Out;
    var a, b, d, n := c.Rule().From(from), Piece(c, from).Rule(), Piece(c, from).ChunkTokens(), to - from;
    Shapes(c, from);
    Zeroth(a, s0);
    Zeroth(b, s0);
    StateContinues(a, b, 0, s0, s0, n);
    StateContinues(b, d, 0, s0, s0, n);
    forall u | 0 <= u < n
      ensures outs[u] == a.Out(s0, u)
    {
      OutContinues(a, b, 0, s0, s0, n, u);
      OutContinues(b, d, 0, s0, s0, n, u);
      assert 0 + u == u;
    }
    assert 0 + n == n;
  }

  lemma Shapes(c: Inputs, from: int)
    requires c.Laws()
    ensures Piece(c, from).Laws() && Piece(c, from).ChunkTokens().e.Laws()
    ensures c.Rule().From(from).dk == Piece(c, from).Rule().dk == Piece(c, from).ChunkTokens().dk == c.dk
  {
    hide Sum;
  }

  lemma Zeroth(a: Tokens, s0: Vec)
    ensures a.State(s0, 0) == s0
  {
  }

  /** One sequence token by token, its state read once and written once. */
  method StepSequence(c: Inputs, from: nat, to: nat, s0: Vec, groups: nat) returns (outs: seq<real>, last: seq<real>)
    requires c.Laws() && from <= to && groups > 0
    ensures RunIs(c, from, to, s0, outs, last)
  {
    hide Sum, Inputs.Laws, Inputs.Rule, Tokens.From, Tokens.State, Tokens.Out;
    var state := new real[c.dk](x => s0(x));
    outs := Tokenwise(c, from, to, state, groups, s0);
    last := state[..];
  }

  // ----- packed calls -----

  ghost predicate SequenceHolds(c: Inputs, cu: seq<int>, states: int -> Vec, s: int, outs: seq<real>, last: seq<real>)
    requires c.Laws() && 0 <= s < |cu| - 1
  {
    && 0 <= cu[s] <= cu[s + 1] <= |outs|
    && RunIs(c, cu[s], cu[s + 1], states(s), outs[cu[s]..cu[s + 1]], last)
  }

  ghost predicate AllHold(c: Inputs, cu: seq<int>, states: int -> Vec, n: nat, outs: seq<real>, finals: seq<seq<real>>)
    requires c.Laws() && n < |cu|
  {
    |finals| == n && forall s :: 0 <= s < n ==> SequenceHolds(c, cu, states, s, outs, finals[s])
  }

  lemma Joined(c: Inputs, cu: seq<int>, states: int -> Vec, s: nat, outs: seq<real>, finals: seq<seq<real>>,
               o: seq<real>, last: seq<real>)
    requires c.Laws() && s + 1 < |cu| && |outs| == cu[s] <= cu[s + 1]
    requires AllHold(c, cu, states, s, outs, finals) && RunIs(c, cu[s], cu[s + 1], states(s), o, last)
    ensures |outs + o| == cu[s + 1] && AllHold(c, cu, states, s + 1, outs + o, finals + [last])
  {
    hide Sum, Inputs.Laws, Inputs.Rule, Holds, Tokens.From, Tokens.State, Tokens.Out;
    assert |o| == cu[s + 1] - cu[s];
    assert (outs + o)[cu[s]..cu[s + 1]] == o;
    forall a | 0 <= a < s
      ensures SequenceHolds(c, cu, states, a, outs + o, finals[a])
    {
      assert SequenceHolds(c, cu, states, a, outs, finals[a]);
      assert (outs + o)[cu[a]..cu[a + 1]] == outs[cu[a]..cu[a + 1]];
    }
  }

  lemma NothingRun(c: Inputs, cu: seq<int>, states: int -> Vec)
    requires c.Laws() && 0 < |cu|
    ensures AllHold(c, cu, states, 0, [], [])
  {
  }

  /** `chunk_gated_delta_rule` over packed sequences: refused when there is no token or the narrowed bounds
      are not ordered; else every sequence the rule's outputs and final state, in its place. */
  method ChunkPacked(c: Inputs, t: nat, offsets: seq<int>, states: int -> Vec)
    returns (r: Option<(seq<real>, seq<seq<real>>)>)
    requires c.Laws()
    ensures r.Some? <==> t > 0 && Ordered(Narrow(offsets), t)
    ensures r.Some? ==> |r.value.0| == t && AllHold(c, Narrow(offsets), states, |offsets| - 1, r.value.0, r.value.1)
  {
    hide AllHold, RunIs, Inputs.Laws;
    var cu := Narrow(offsets);
    if t == 0 || !Ordered(cu, t) {
      return None;
    }
    var outs: seq<real>, finals: seq<seq<real>> := [], [];
    NothingRun(c, cu, states);
    for s := 0 to |cu| - 1
      invariant |outs| == cu[s] && AllHold(c, cu, states, s, outs, finals)
    {
      var o, last;
      if cu[s] == cu[s + 1] {
        o, last := [], seq(c.dk, x => states(s)(x));
        NoTokens(c, cu[s], states(s), last);
      } else {
        o, last := ChunkSequence(c, cu[s], cu[s + 1], states(s));
      }
      Joined(c, cu, states, s, outs, finals, o, last);
      outs, finals := outs + o, finals + [last];
    }
    r := Some((outs, finals));
  }

  /** A sequence with no tokens keeps its state. */
  lemma NoTokens(c: Inputs, from: nat, s0: Vec, last: seq<real>)
    requires c.Laws() && Holds(c.dk, last, s0)
    ensures RunIs(c, from, from, s0, [], last)
  {
    hide Inputs.Laws, Inputs.Rule, Tokens.From;
    Zeroth(c.Rule().From(from), s0);
  }

  /** `gated_delta_step` over packed sequences: refused unless the narrowed bounds are ordered; else the
      same outputs and states, its threads splitting the rows among `groups` simdgroups. */
  method StepPacked(c: Inputs, t: nat, offsets: seq<int>, states: int -> Vec, groups: nat)
    returns (r: Option<(seq<real>, seq<seq<real>>)>)
    requires c.Laws() && groups > 0
    ensures r.Some? <==> Ordered(Narrow(offsets), t)
    ensures r.Some? ==> |r.value.0| == t && AllHold(c, Narrow(offsets), states, |offsets| - 1, r.value.0, r.value.1)
  {
    hide AllHold, RunIs, Inputs.Laws;
    var cu := Narrow(offsets);
    if !Ordered(cu, t) {
      return None;
    }
    var outs: seq<real>, finals: seq<seq<real>> := [], [];
    NothingRun(c, cu, states);
    for s := 0 to |cu| - 1
      invariant |outs| == cu[s] && AllHold(c, cu, states, s, outs, finals)
    {
      var o, last := StepSequence(c, cu[s], cu[s + 1], states(s), groups);
      Joined(c, cu, states, s, outs, finals, o, last);
      outs, finals := outs + o, finals + [last];
    }
    r := Some((outs, finals));
  }

  /** A prompt in chunks, then tokens stepped from the state it left: the whole sequence's outputs and
      final state, wherever the prompt ends. */
  method PromptThenSteps(c: Inputs, prompt: nat, t: nat, s0: Vec, groups: nat)
    returns (outs: seq<real>, last: seq<real>)
    requires c.Laws() && prompt <= t && groups > 0
    ensures RunIs(c, 0, t, s0, outs, last)
  {
    hide RunIs, Inputs.Laws;
    var first, state := ChunkSequence(c, 0, prompt, s0);
    assert |state| == c.dk by { StateSize(c, 0, prompt, s0, first, state); }
    var left: Vec := x => if 0 <= x < |state| then state[x] else 0.0;
    var rest, final := StepSequence(c, prompt, t, left, groups);
    RunsMeet(c, prompt, t, s0, first, state, left, rest, final);
    outs, last := first + rest, final;
  }

  lemma StateSize(c: Inputs, from: nat, to: nat, s0: Vec, outs: seq<real>, last: seq<real>)
    requires c.Laws() && from <= to && RunIs(c, from, to, s0, outs, last)
    ensures |last| == c.dk
  {
  }

  lemma RunsMeet(c: Inputs, prompt: nat, t: nat, s0: Vec, first: seq<real>, state: seq<real>, left: Vec,
                 rest: seq<real>, last: seq<real>)
    requires c.Laws() && prompt <= t && RunIs(c, 0, prompt, s0, first, state) && Holds(c.dk, state, left)
    requires RunIs(c, prompt, t, left, rest, last)
    ensures RunIs(c, 0, t, s0, first + rest, last)
  {
    hide Sum, Inputs.Laws, Inputs.Rule, Tokens.From, Tokens.State, Tokens.Out;
    var a, b, n := c.Rule().From(0), c.Rule().From(prompt), t - prompt;
    SuffixAlike(c.Rule(), prompt, n);
    Shapes(c, 0);
    Shapes(c, prompt);
    assert SameState(c.dk, a.State(s0, prompt), left);
    StateContinues(a, b, prompt, s0, left, n);
    forall u | 0 <= u < t
      ensures (first + rest)[u] == a.Out(s0, u)
    {
      if u >= prompt {
        OutContinues(a, b, prompt, s0, left, n, u - prompt);
        assert rest[u - prompt] == b.Out(left, u - prompt);
        assert prompt + (u - prompt) == u;
      }
    }
    assert prompt + n == t;
  }

  lemma SuffixAlike(c: Tokens, d: int, n: int)
    ensures Alike(c.From(0), c.From(d), d, n)
  {
  }
}
