/** The chunked gated delta rule: the padding to whole chunks, each chunk's system solved by the inverse
    of its triangle, the scan from chunk to chunk, and the outputs; and the proof that it gives
    the outputs and the final state of the rule a token at a time. */
module DeltaChunk {
  import opened Sums
  import opened Vectors
  import opened GatedDelta
  import opened DeltaInverse
  import opened DeltaScan

  /** Tokens per chunk. */
  const CHUNK: nat := 64

  /** The first t tokens, and after them tokens of zeros: with beta and g 0 they leave any state as it is. */
  function Padded(c: Tokens, t: int): Tokens {
    Tokens(c.e, c.dk, (u, x) => if u < t then c.q(u, x) else 0.0, (u, x) => if u < t then c.k(u, x) else 0.0,
           u => if u < t then c.v(u) else 0.0, u => if u < t then c.g(u) else 0.0,
           u => if u < t then c.beta(u) else 0.0)
  }

  lemma {:induction false} PaddingKeeps(c: Tokens, t: nat, s0: Vec, n: nat)
    requires c.e.Laws() && t <= n
    ensures SameState(c.dk, Padded(c, t).State(s0, n), c.State(s0, t))
    decreases n
  {
    hide Tokens.Correction;
    var p := Padded(c, t);
    if n == t {
      StateContinues(c, p, 0, s0, s0, t);
    } else {
      PaddingKeeps(c, t, s0, n - 1);
      var s := p.State(s0, n - 1);
      forall x | 0 <= x < c.dk
        ensures p.State(s0, n)(x) == s(x)
      {
        assert p.Decayed(n - 1, s)(x) == 1.0 * s(x);
        assert p.k(n - 1, x) == 0.0;
      }
    }
  }

  lemma PaddedOut(c: Tokens, t: nat, s0: Vec, u: nat)
    requires u < t
    ensures Padded(c, t).Out(s0, u) == c.Out(s0, u)
  {
    hide Tokens.Out;
    OutContinues(c, Padded(c, t), 0, s0, s0, t, u);
  }

  // ----- one chunk -----

  /** exp(G), and the chunk's values and keys as the inverse takes them. */
  function Gamma(c: Tokens, c0: int): Vec { i => c.e.exp(Cum(c, c0, i)) }

  function BetaValues(c: Tokens, c0: int): Vec { i => c.v(c0 + i) * c.beta(c0 + i) }

  function BetaKeys(c: Tokens, c0: int): Mat { (i, x) => c.k(c0 + i, x) * c.beta(c0 + i) * Gamma(c, c0)(i) }

  /** exp(G) Q. */
  function GammaQueries(c: Tokens, c0: int): Mat { (i, x) => c.q(c0 + i, x) * Gamma(c, c0)(i) }

  /** W = M (beta exp(G) K). */
  function Independent(n: int, m: Mat, c: Tokens, c0: int): Mat { (r, x) => Combine(n, Row(m, r), BetaKeys(c, c0))(x) }

  /** U0 - W S is M times the run's right-hand side. */
  lemma ScanRightHand(n: int, m: Mat, c: Tokens, c0: int, s: Vec, r: int)
    ensures Apply(n, m, BetaValues(c, c0))(r) - Dot(c.dk, Row(Independent(n, m, c, c0), r), s)
         == Apply(n, m, Rhs(c, c0, s))(r)
  {
    hide Sum, Dot, Cum;
    var values, keys, row := BetaValues(c, c0), BetaKeys(c, c0), Row(m, r);
    Adjoint(n, c.dk, row, keys, s);
    DotSymmetric(c.dk, Row(Independent(n, m, c, c0), r), s);
    DotEqual(c.dk, s, Row(Independent(n, m, c, c0), r), s, Combine(n, row, keys));
    forall i | 0 <= i < n
      ensures Rhs(c, c0, s)(i) == 1.0 * values(i) + -1.0 * Project(c.dk, keys, s)(i)
    {
      RightHandAt(c, c0, s, i);
    }
    DotLinear(n, row, 1.0, values, -1.0, Project(c.dk, keys, s), Rhs(c, c0, s));
  }

  lemma RightHandAt(c: Tokens, c0: int, s: Vec, i: int)
    ensures Rhs(c, c0, s)(i) == BetaValues(c, c0)(i) - Dot(c.dk, Row(BetaKeys(c, c0), i), s)
  {
    hide Sum, Dot, Cum;
    var f, key := c.beta(c0 + i) * Gamma(c, c0)(i), Row(c.k, c0 + i);
    forall x | 0 <= x < c.dk
      ensures Row(BetaKeys(c, c0), i)(x) == f * key(x)
    {
      Gather(c.k(c0 + i, x), c.beta(c0 + i), Gamma(c, c0)(i));
    }
    DotScale(c.dk, s, f, key, Row(BetaKeys(c, c0), i));
    DotSymmetric(c.dk, s, Row(BetaKeys(c, c0), i));
    Spread(c.beta(c0 + i), c.v(c0 + i), Gamma(c, c0)(i), Dot(c.dk, s, key));
  }

  lemma Gather(k: real, b: real, f: real)
    ensures k * b * f == b * f * k
  {
  }

  lemma Spread(b: real, v: real, f: real, along: real)
    ensures b * (v - f * along) == v * b - b * f * along
  {
  }

  /** Everything the scan takes, from the chunks' inverses. */
  function ScanOf(c: Tokens, size: nat, n: nat, ms: int -> Mat, s0: Vec): Scan {
    Scan(c.dk, size, n, i => Independent(size, ms(i), c, i * size), i => Kept(c, i * size, size),
         i => c.e.exp(Cum(c, i * size, size - 1)), (i, r) => Apply(size, ms(i), BetaValues(c, i * size))(r), s0)
  }

  ghost predicate Inverted(c: Tokens, size: nat, n: nat, ms: int -> Mat) {
    forall i :: 0 <= i < n ==> Inverts(size, Lower(c, i * size), ms(i))
  }

  /** A chunk entered with the token rule's state: its U solves the chunk's system. */
  lemma ChunkSolves(c: Tokens, size: nat, n: nat, ms: int -> Mat, s0: Vec, i: nat)
    requires Inverted(c, size, n, ms) && i < n && i * size >= 0
    requires SameState(c.dk, ScanOf(c, size, n, ms, s0).Enters(i), c.State(s0, i * size))
    ensures Solves(size, Lower(c, i * size), Rhs(c, i * size, c.State(s0, i * size)), ScanOf(c, size, n, ms, s0).U(i))
  {
    hide Sum, Dot, Lower, Rhs, Inverts, Solves, Apply, Independent, Tokens.State, Scan.Enters, Scan.U;
    var s, c0, m := ScanOf(c, size, n, ms, s0), i * size, ms(i);
    var entering := c.State(s0, c0);
    assert Inverts(size, Lower(c, c0), m);
    InverseSolves(size, Lower(c, c0), m, Rhs(c, c0, entering));
    forall r | 0 <= r < size
      ensures Apply(size, m, Rhs(c, c0, entering))(r) == s.U(i)(r)
    {
      ScanRightHand(size, m, c, c0, entering, r);
      DotEqual(c.dk, Row(Independent(size, m, c, c0), r), s.Enters(i), Row(Independent(size, m, c, c0), r), entering);
      ScanUAt(c, size, n, ms, s0, i, r);
    }
    SameSolves(size, Lower(c, c0), Rhs(c, c0, entering), Apply(size, m, Rhs(c, c0, entering)), s.U(i));
  }

  lemma ScanUAt(c: Tokens, size: nat, n: nat, ms: int -> Mat, s0: Vec, i: nat, r: int)
    ensures ScanOf(c, size, n, ms, s0).U(i)(r)
         == Apply(size, ms(i), BetaValues(c, i * size))(r)
            - Dot(c.dk, Row(Independent(size, ms(i), c, i * size), r), ScanOf(c, size, n, ms, s0).Enters(i))
  {
    hide Sum, Dot, Apply, Independent, BetaValues, Scan.Enters;
  }

  lemma ScanNextAt(c: Tokens, size: nat, n: nat, ms: int -> Mat, s0: Vec, s: Scan, i: nat, x: int)
    requires s == ScanOf(c, size, n, ms, s0)
    ensures s.Enters(i + 1)(x)
         == c.e.exp(Cum(c, i * size, size - 1)) * s.Enters(i)(x) + Combine(size, s.U(i), Kept(c, i * size, size))(x)
  {
    hide Sum, Combine, Kept, Cum, Scan.U, Scan.Enters;
    NextIs(s, i);
  }

  /** Every chunk is entered with the token rule's state there. */
  lemma {:induction false} ScanFollows(c: Tokens, size: nat, n: nat, ms: int -> Mat, s0: Vec, i: nat)
    requires c.e.Laws() && size > 0 && Inverted(c, size, n, ms) && i <= n
    ensures i * size >= 0 && SameState(c.dk, ScanOf(c, size, n, ms, s0).Enters(i), c.State(s0, i * size))
    decreases i
  {
    hide Sum, Cum, Lower, Rhs, Inverted, Solves, Combine, Kept, Scan.U, Scan.Enters, Tokens.State;
    var s := ScanOf(c, size, n, ms, s0);
    if i == 0 {
      EntersFirst(s, c, s0);
    } else {
      ScanFollows(c, size, n, ms, s0, i - 1);
      ChunkSolves(c, size, n, ms, s0, i - 1);
      var c0 := (i - 1) * size;
      assert i * size == c0 + size;
      forall x | 0 <= x < c.dk
        ensures s.Enters(i)(x) == c.State(s0, i * size)(x)
      {
        RunFinal(c, c0, s0, s.U(i - 1), size, x);
        ScanNextAt(c, size, n, ms, s0, s, i - 1, x);
        assert s.Enters(i)(x) == c.State(s0, c0 + size)(x);
      }
    }
  }

  lemma EntersFirst(s: Scan, c: Tokens, s0: Vec)
    requires s.s0 == s0
    ensures s.Enters(0) == s0 && c.State(s0, 0) == s0
  {
  }

  /** O = (exp(G) Q) S + P U, token r of chunk i. */
  lemma ChunkOutput(c: Tokens, size: nat, n: nat, ms: int -> Mat, s0: Vec, i: nat, r: nat)
    requires c.e.Laws() && size > 0 && Inverted(c, size, n, ms) && i < n && r < size
    ensures i * size + r >= 0
    ensures Dot(c.dk, Row(GammaQueries(c, i * size), r), ScanOf(c, size, n, ms, s0).Enters(i))
            + Dot(size, Row(Attends(c, i * size), r), ScanOf(c, size, n, ms, s0).U(i))
         == c.Out(s0, i * size + r)
  {
    hide Sum, Dot, Cum, Lower, Rhs, Inverted, Solves, Attends, Scan.U, Scan.Enters, Tokens.State, Tokens.Out;
    var s, c0 := ScanOf(c, size, n, ms, s0), i * size;
    ScanFollows(c, size, n, ms, s0, i);
    ChunkSolves(c, size, n, ms, s0, i);
    RunOutput(c, c0, s0, s.U(i), size, r);
    QueriesAlong(c, c0, s.Enters(i), c.State(s0, c0), r);
    AttendsBelow(c, c0, size, s.U(i), r);
  }

  lemma QueriesAlong(c: Tokens, c0: int, s: Vec, s': Vec, r: nat)
    requires SameState(c.dk, s, s')
    ensures Dot(c.dk, Row(GammaQueries(c, c0), r), s) == c.e.exp(Cum(c, c0, r)) * Dot(c.dk, s', Row(c.q, c0 + r))
  {
    hide Sum, Dot, Cum;
    forall x | 0 <= x < c.dk
      ensures Row(GammaQueries(c, c0), r)(x) == c.e.exp(Cum(c, c0, r)) * Row(c.q, c0 + r)(x)
    {
      assert GammaQueries(c, c0)(r, x) == c.q(c0 + r, x) * Gamma(c, c0)(r);
    }
    DotScale(c.dk, s', c.e.exp(Cum(c, c0, r)), Row(c.q, c0 + r), Row(GammaQueries(c, c0), r));
    DotSymmetric(c.dk, s', Row(GammaQueries(c, c0), r));
    DotEqual(c.dk, Row(GammaQueries(c, c0), r), s, Row(GammaQueries(c, c0), r), s');
  }

  /** Above its diagonal P is 0. */
  lemma AttendsBelow(c: Tokens, c0: int, size: nat, u: Vec, r: nat)
    requires r < size
    ensures Dot(size, Row(Attends(c, c0), r), u) == Sum(0, r + 1, Times(Row(Attends(c, c0), r), u))
  {
    hide Sum, Dot, Between;
    var terms := Times(Row(Attends(c, c0), r), u);
    DotIs(size, Row(Attends(c, c0), r), u);
    SumSplit(0, r + 1, size, terms);
    SumZero(r + 1, size, terms);
  }

  // ----- the call -----

  /** The chunks' inverses. */
  method Inverses(c: Tokens, size: nat, n: nat) returns (ms: int -> Mat)
    ensures Inverted(c, size, n, ms)
  {
    hide Inverts, Lower;
    var all: seq<Mat> := [];
    for i := 0 to n
      invariant |all| == i && forall h :: 0 <= h < i ==> Inverts(size, Lower(c, h * size), all[h])
    {
      var m := Inverse(size, Lower(c, i * size));
      all := all + [m];
    }
    ms := i => if 0 <= i < |all| then all[i] else (r, x) => 0.0;
  }

  /** One chunk's outputs. */
  method ChunkOut(c: Tokens, size: nat, c0: int, state: seq<real>, u: seq<real>, ghost s: Scan, ghost i: nat)
    returns (out: seq<real>)
    requires Holds(c.dk, state, s.Enters(i)) && Holds(size, u, s.U(i))
    ensures |out| == size
    ensures forall r :: 0 <= r < size ==>
      out[r] == Dot(c.dk, Row(GammaQueries(c, c0), r), s.Enters(i)) + Dot(size, Row(Attends(c, c0), r), s.U(i))
  {
    hide Sum, Dot, Attends, GammaQueries, Scan.Enters, Scan.U;
    out := [];
    for r := 0 to size
      invariant |out| == r
      invariant forall h :: 0 <= h < r ==>
        out[h] == Dot(c.dk, Row(GammaQueries(c, c0), h), s.Enters(i)) + Dot(size, Row(Attends(c, c0), h), s.U(i))
    {
      var entering := Against(c.dk, Row(GammaQueries(c, c0), r), state, s.Enters(i));
      var within := Against(size, Row(Attends(c, c0), r), u, s.U(i));
      out := out + [entering + within];
    }
  }

  /** One sequence by chunks, one column of the values: the outputs and the final state of the rule a token
      at a time, whatever the chunk. */
  method ChunkedRule(c: Tokens, t: nat, size: nat, s0: Vec) returns (out: seq<real>, last: seq<real>)
    requires c.e.Laws() && size > 0
    ensures |out| == t && forall u :: 0 <= u < t ==> out[u] == c.Out(s0, u)
    ensures Holds(c.dk, last, c.State(s0, t))
  {
    hide Sum, Dot, Inverted, Attends, GammaQueries, Scan.Enters, Scan.U, Tokens.Out, Tokens.State, Padded;
    var n := (t + size - 1) / size;
    var p := Padded(c, t);
    assert p.e == c.e && p.dk == c.dk by { PaddedShares(c, t); }
    var ms := Inverses(p, size, n);
    var s := ScanOf(p, size, n, ms, s0);
    var states, us: seq<seq<real>>;
    states, us, last := ForwardScan(s);
    out := [];
    for i := 0 to n
      invariant |out| == i * size
      invariant forall u :: 0 <= u < |out| ==> out[u] == p.Out(s0, u)
    {
      var o := ChunkOut(p, size, i * size, states[i], us[i], s, i);
      forall r | 0 <= r < size
        ensures o[r] == p.Out(s0, i * size + r)
      {
        ChunkOutput(p, size, n, ms, s0, i, r);
      }
      JoinedOut(p, s0, out, o);
      out := out + o;
    }
    CoversAll(t, size);
    forall u | 0 <= u < t
      ensures out[u] == c.Out(s0, u)
    {
      PaddedOut(c, t, s0, u);
    }
    ScanFollows(p, size, n, ms, s0, n);
    PaddingKeeps(c, t, s0, n * size);
    out := out[..t];
  }

  lemma PaddedShares(c: Tokens, t: int)
    ensures Padded(c, t).e == c.e && Padded(c, t).dk == c.dk
  {
  }

  lemma JoinedOut(p: Tokens, s0: Vec, out: seq<real>, o: seq<real>)
    requires forall u :: 0 <= u < |out| ==> out[u] == p.Out(s0, u)
    requires forall r :: 0 <= r < |o| ==> o[r] == p.Out(s0, |out| + r)
    ensures forall u :: 0 <= u < |out + o| ==> (out + o)[u] == p.Out(s0, u)
  {
    hide Tokens.Out;
    forall u | 0 <= u < |out + o|
      ensures (out + o)[u] == p.Out(s0, u)
    {
      if u >= |out| {
        assert o[u - |out|] == p.Out(s0, |out| + (u - |out|));
      }
    }
  }

  lemma CoversAll(t: nat, size: nat)
    requires size > 0
    ensures t <= (t + size - 1) / size * size
  {
    var n := (t + size - 1) / size;
    assert t + size - 1 == n * size + (t + size - 1) % size;
  }
}
