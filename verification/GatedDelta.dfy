/** The gated delta rule, a token at a time, and the theorem a chunked pass rests on: over a run of
    tokens the state is the entering state decayed and a combination of the run's keys, whose
    coefficients solve one unit lower triangular system. */
module GatedDelta {
  import opened Sums
  import opened Vectors
  import opened Analysis

  /** One head's tokens with one column of its values: the state's columns do not meet. Queries and keys
      as the rule takes them, normalised and scaled. */
  datatype Tokens = Tokens(e: Exponential, dk: nat, q: Mat, k: Mat, v: Vec, g: Vec, beta: Vec) {

    /** The correction of token t to a state already decayed. */
    function Correction(t: int, decayed: Vec): real { beta(t) * (v(t) - Dot(dk, decayed, Row(k, t))) }

    function Decayed(t: int, s: Vec): Vec { x => e.exp(g(t)) * s(x) }

    /** The contract's step: S_t = exp(g) S + beta k (v - exp(g) S^T k)^T. */
    function Next(t: int, s: Vec): Vec {
      x => Decayed(t, s)(x) + k(t, x) * Correction(t, Decayed(t, s))
    }

    /** The state after the first n tokens. */
    function State(s0: Vec, n: nat): Vec { if n == 0 then s0 else Next(n - 1, State(s0, n - 1)) }

    /** The output of token t. */
    function Out(s0: Vec, t: nat): real { Dot(dk, State(s0, t + 1), Row(q, t)) }

    /** The tokens from d on. */
    function From(d: int): Tokens {
      Tokens(e, dk, (t, x) => q(d + t, x), (t, x) => k(d + t, x), t => v(d + t), t => g(d + t), t => beta(d + t))
    }
  }

  // ----- a run of tokens -----

  /** The sum of g over the run's tokens up to and including its i-th. */
  function Cum(c: Tokens, c0: int, i: int): real { Sum(c0, c0 + i + 1, c.g) }

  /** exp(G_i - G_j). */
  function Between(c: Tokens, c0: int, i: int, j: int): real { c.e.exp(Cum(c, c0, i) - Cum(c, c0, j)) }

  function KeyProduct(c: Tokens, c0: int, i: int, j: int): real { Dot(c.dk, Row(c.k, c0 + i), Row(c.k, c0 + j)) }

  /** A[i, j] = beta_i (k_i . k_j) exp(G_i - G_j) below the diagonal. */
  function Lower(c: Tokens, c0: int): Mat {
    (i, j) => if j < i then c.beta(c0 + i) * KeyProduct(c, c0, i, j) * Between(c, c0, i, j) else 0.0
  }

  /** The run's right-hand side: beta (v - exp(G) S^T k). */
  function Rhs(c: Tokens, c0: int, s: Vec): Vec {
    i => c.beta(c0 + i) * (c.v(c0 + i) - c.e.exp(Cum(c, c0, i)) * Dot(c.dk, s, Row(c.k, c0 + i)))
  }

  /** (I + N) u = b on the first n rows, N read below the diagonal. */
  ghost predicate Solves(n: int, lower: Mat, b: Vec, u: Vec) {
    forall i :: 0 <= i < n ==> u(i) + Sum(0, i, Times(Row(lower, i), u)) == b(i)
  }

  /** What the run's first m tokens have written, seen from its i-th. */
  function Written(c: Tokens, c0: int, u: Vec, i: int, x: int): Vec {
    j => Between(c, c0, i, j) * (c.k(c0 + j, x) * u(j))
  }

  /** The state after the run's i-th token less that token's own correction. */
  function Carried(c: Tokens, c0: int, s: Vec, u: Vec, i: int): Vec {
    x => c.e.exp(Cum(c, c0, i)) * s(x) + Sum(0, i, Written(c, c0, u, i, x))
  }

  lemma CumNext(c: Tokens, c0: int, i: int)
    requires i >= 0
    ensures Cum(c, c0, i) == Cum(c, c0, i - 1) + c.g(c0 + i)
  {
  }

  lemma BetweenNext(c: Tokens, c0: int, i: int, j: int)
    requires c.e.Laws() && i >= 0
    ensures Between(c, c0, i, j) == c.e.exp(c.g(c0 + i)) * Between(c, c0, i - 1, j)
    ensures c.e.exp(Cum(c, c0, i)) == c.e.exp(c.g(c0 + i)) * c.e.exp(Cum(c, c0, i - 1))
  {
    hide Cum;
    CumNext(c, c0, i);
    var before, g := Cum(c, c0, i - 1), c.g(c0 + i);
    assert c.e.AddLaw(g, before - Cum(c, c0, j));
    assert g + (before - Cum(c, c0, j)) == Cum(c, c0, i) - Cum(c, c0, j);
    assert c.e.AddLaw(g, before);
    assert g + before == Cum(c, c0, i);
  }

  /** A state of the run's form, decayed by the next token, is what that token carries. */
  lemma DecayCarries(c: Tokens, c0: int, s: Vec, u: Vec, i: int, state: Vec, x: int)
    requires c.e.Laws() && i > 0
    requires state(x) == Carried(c, c0, s, u, i - 1)(x) + c.k(c0 + i - 1, x) * u(i - 1)
    ensures c.Decayed(c0 + i, state)(x) == Carried(c, c0, s, u, i)(x)
  {
    hide Sum, Cum, Between;
    var f := c.e.exp(c.g(c0 + i));
    forall j | 0 <= j < i
      ensures Written(c, c0, u, i, x)(j) == f * Written(c, c0, u, i - 1, x)(j)
    {
      BetweenNext(c, c0, i, j);
      ThreeFactors(f, Between(c, c0, i - 1, j), c.k(c0 + j, x) * u(j));
    }
    SumScale(0, i, f, Written(c, c0, u, i - 1, x), Written(c, c0, u, i, x));
    LastWritten(c, c0, u, i - 1, x);
    BetweenNext(c, c0, i, i);
    ThreeFactors(f, c.e.exp(Cum(c, c0, i - 1)), s(x));
    Distributes(f, c.e.exp(Cum(c, c0, i - 1)) * s(x), Sum(0, i - 1, Written(c, c0, u, i - 1, x)),
                c.k(c0 + i - 1, x) * u(i - 1));
  }

  lemma Distributes(f: real, a: real, b: real, d: real)
    ensures f * (a + b + d) == f * a + f * (b + d)
  {
  }

  /** A token's own correction stands in the sum with the factor 1. */
  lemma LastWritten(c: Tokens, c0: int, u: Vec, i: int, x: int)
    requires c.e.Laws() && i >= 0
    ensures Sum(0, i + 1, Written(c, c0, u, i, x)) == Sum(0, i, Written(c, c0, u, i, x)) + c.k(c0 + i, x) * u(i)
  {
    hide Sum, Between;
    BetweenSelf(c, c0, i);
    SumNext(0, i, Written(c, c0, u, i, x));
    assert Written(c, c0, u, i, x)(i) == Between(c, c0, i, i) * (c.k(c0 + i, x) * u(i));
  }

  lemma BetweenSelf(c: Tokens, c0: int, i: int)
    requires c.e.Laws()
    ensures Between(c, c0, i, i) == 1.0
  {
    hide Cum;
    assert Cum(c, c0, i) - Cum(c, c0, i) == 0.0;
  }

  /** The first token of a run decays the entering state. */
  lemma FirstCarries(c: Tokens, c0: int, s: Vec, u: Vec, state: Vec, x: int)
    requires state(x) == s(x)
    ensures c.Decayed(c0, state)(x) == Carried(c, c0, s, u, 0)(x)
  {
    assert Sum(c0, c0, c.g) == 0.0;
    assert Cum(c, c0, 0) == c.g(c0);
  }

  /** The carried state along a key: the entering state's part and one term for every token before. */
  lemma CarriedAlong(c: Tokens, c0: int, s: Vec, u: Vec, i: int)
    requires i >= 0
    ensures c.beta(c0 + i) * Dot(c.dk, Carried(c, c0, s, u, i), Row(c.k, c0 + i))
         == c.beta(c0 + i) * (c.e.exp(Cum(c, c0, i)) * Dot(c.dk, s, Row(c.k, c0 + i)))
            + Sum(0, i, Times(Row(Lower(c, c0), i), u))
  {
    hide Sum, Dot, Cum, Between, Lower;
    var f, key, beta := c.e.exp(Cum(c, c0, i)), Row(c.k, c0 + i), c.beta(c0 + i);
    CombinationAlong(c, c0, u, i, i, key);
    DotSplits(c.dk, f, s, Gathered(c, c0, u, i, i), Carried(c, c0, s, u, i), key);
    forall j | 0 <= j < i
      ensures Times(Row(Lower(c, c0), i), u)(j) == beta * AlongTerms(c, c0, u, i, key)(j)
    {
      LowerTerm(c, c0, u, i, j);
    }
    SumScale(0, i, beta, AlongTerms(c, c0, u, i, key), Times(Row(Lower(c, c0), i), u));
  }

  /** The combination of the run's first m keys, seen from its i-th token. */
  function Gathered(c: Tokens, c0: int, u: Vec, i: int, m: int): Vec { x => Sum(0, m, Written(c, c0, u, i, x)) }

  function AlongTerms(c: Tokens, c0: int, u: Vec, i: int, key: Vec): Vec {
    j => Between(c, c0, i, j) * u(j) * Dot(c.dk, Row(c.k, c0 + j), key)
  }

  lemma LowerTerm(c: Tokens, c0: int, u: Vec, i: int, j: int)
    requires 0 <= j < i
    ensures Lower(c, c0)(i, j) * u(j) == c.beta(c0 + i) * AlongTerms(c, c0, u, i, Row(c.k, c0 + i))(j)
  {
    hide Sum, Dot, Between;
    DotSymmetric(c.dk, Row(c.k, c0 + j), Row(c.k, c0 + i));
    FourFactors(c.beta(c0 + i), KeyProduct(c, c0, i, j), Between(c, c0, i, j), u(j));
  }

  lemma FourFactors(b: real, d: real, f: real, u: real)
    ensures b * d * f * u == b * (f * u * d)
  {
  }

  lemma DotSplits(n: int, f: real, s: Vec, w: Vec, both: Vec, key: Vec)
    requires forall x :: 0 <= x < n ==> both(x) == f * s(x) + w(x)
    ensures Dot(n, both, key) == f * Dot(n, s, key) + Dot(n, w, key)
  {
    hide Sum, Dot;
    DotLinear(n, key, f, s, 1.0, w, both);
    DotSymmetric(n, both, key);
    DotSymmetric(n, s, key);
    DotSymmetric(n, w, key);
  }

  /** A combination of the keys along a vector is the combination of their products. */
  lemma CombinationAlong(c: Tokens, c0: int, u: Vec, i: int, m: int, key: Vec)
    ensures Dot(c.dk, Gathered(c, c0, u, i, m), key) == Sum(0, m, AlongTerms(c, c0, u, i, key))
  {
    hide Sum, Between;
    var terms: Mat := (j, x) => Between(c, c0, i, j) * (c.k(c0 + j, x) * u(j)) * key(x);
    forall x | 0 <= x < c.dk
      ensures Times(Gathered(c, c0, u, i, m), key)(x) == Sum(0, m, Col(terms, x))
    {
      SumScale(0, m, key(x), Written(c, c0, u, i, x), Col(terms, x));
    }
    forall j | 0 <= j < m
      ensures AlongTerms(c, c0, u, i, key)(j) == Sum(0, c.dk, Row(terms, j))
    {
      forall x | 0 <= x < c.dk
        ensures Row(terms, j)(x) == Between(c, c0, i, j) * u(j) * Times(Row(c.k, c0 + j), key)(x)
      {
        Regroup(Between(c, c0, i, j), c.k(c0 + j, x), u(j), key(x));
      }
      SumScale(0, c.dk, Between(c, c0, i, j) * u(j), Times(Row(c.k, c0 + j), key), Row(terms, j));
    }
    SumExchange(0, m, AlongTerms(c, c0, u, i, key), 0, c.dk, Times(Gathered(c, c0, u, i, m), key), terms);
  }

  lemma Regroup(f: real, k: real, u: real, key: real)
    ensures f * (k * u) * key == f * u * (k * key)
  {
  }

  /** The run's state after its i-th token. */
  ghost predicate RunHolds(c: Tokens, c0: nat, s0: Vec, u: Vec, i: nat) {
    forall x :: 0 <= x < c.dk ==>
      c.State(s0, c0 + i + 1)(x) == Carried(c, c0, c.State(s0, c0), u, i)(x) + c.k(c0 + i, x) * u(i)
  }

  /** A token whose carried state is known corrects it by its coefficient. */
  lemma TokenHolds(c: Tokens, c0: nat, s0: Vec, u: Vec, n: nat, i: nat)
    requires i < n && Solves(n, Lower(c, c0), Rhs(c, c0, c.State(s0, c0)), u)
    requires forall x :: 0 <= x < c.dk ==>
      c.Decayed(c0 + i, c.State(s0, c0 + i))(x) == Carried(c, c0, c.State(s0, c0), u, i)(x)
    ensures RunHolds(c, c0, s0, u, i)
  {
    hide Sum, Dot, Carried, Lower, Cum, Tokens.Decayed;
    var s, decayed := c.State(s0, c0), c.Decayed(c0 + i, c.State(s0, c0 + i));
    CarriedAlong(c, c0, s, u, i);
    DotEqual(c.dk, decayed, Row(c.k, c0 + i), Carried(c, c0, s, u, i), Row(c.k, c0 + i));
    CorrectionArithmetic(c.beta(c0 + i), c.v(c0 + i), Dot(c.dk, decayed, Row(c.k, c0 + i)),
                         c.e.exp(Cum(c, c0, i)) * Dot(c.dk, s, Row(c.k, c0 + i)),
                         Sum(0, i, Times(Row(Lower(c, c0), i), u)));
    assert u(i) + Sum(0, i, Times(Row(Lower(c, c0), i), u)) == Rhs(c, c0, s)(i);
    assert c.Correction(c0 + i, decayed) == u(i);
  }

  lemma CorrectionArithmetic(beta: real, v: real, along: real, entering: real, before: real)
    requires beta * along == beta * entering + before
    ensures beta * (v - along) == beta * (v - entering) - before
  {
  }

  /** Over a run whose coefficients solve its system, every state has the run's form. */
  lemma {:induction false} RunStates(c: Tokens, c0: nat, s0: Vec, u: Vec, n: nat, i: nat)
    requires c.e.Laws() && i < n && Solves(n, Lower(c, c0), Rhs(c, c0, c.State(s0, c0)), u)
    ensures RunHolds(c, c0, s0, u, i)
    decreases i
  {
    hide Solves, Carried, Tokens.Decayed, Tokens.State;
    var s := c.State(s0, c0);
    if i > 0 {
      RunStates(c, c0, s0, u, n, i - 1);
    }
    forall x | 0 <= x < c.dk
      ensures c.Decayed(c0 + i, c.State(s0, c0 + i))(x) == Carried(c, c0, s, u, i)(x)
    {
      if i == 0 {
        FirstCarries(c, c0, s, u, s, x);
      } else {
        assert c0 + (i - 1) + 1 == c0 + i;
        DecayCarries(c, c0, s, u, i, c.State(s0, c0 + i), x);
      }
    }
    TokenHolds(c, c0, s0, u, n, i);
  }

  /** P[i, j] = (q_i . k_j) exp(G_i - G_j) up to the diagonal. */
  function Attends(c: Tokens, c0: int): Mat {
    (i, j) => if j <= i then Dot(c.dk, Row(c.q, c0 + i), Row(c.k, c0 + j)) * Between(c, c0, i, j) else 0.0
  }

  /** The output of the run's i-th token: exp(G_i) q S and P u. */
  lemma RunOutput(c: Tokens, c0: nat, s0: Vec, u: Vec, n: nat, i: nat)
    requires c.e.Laws() && i < n && Solves(n, Lower(c, c0), Rhs(c, c0, c.State(s0, c0)), u)
    ensures c.Out(s0, c0 + i)
         == c.e.exp(Cum(c, c0, i)) * Dot(c.dk, c.State(s0, c0), Row(c.q, c0 + i))
            + Sum(0, i + 1, Times(Row(Attends(c, c0), i), u))
  {
    hide Sum, Dot, Solves, Tokens.State, Cum, Between, Attends, Carried;
    RunStates(c, c0, s0, u, n, i);
    var s, after := c.State(s0, c0), c.State(s0, c0 + i + 1);
    forall x | 0 <= x < c.dk
      ensures after(x) == Carried(c, c0, s, u, i)(x) + c.k(c0 + i, x) * u(i)
    {
    }
    AfterAlong(c, c0, s, u, i, after);
    assert c.Out(s0, c0 + i) == Dot(c.dk, after, Row(c.q, c0 + i));
  }

  /** A state of the run's form along the token's query. */
  lemma AfterAlong(c: Tokens, c0: int, s: Vec, u: Vec, i: nat, after: Vec)
    requires c.e.Laws() && forall x :: 0 <= x < c.dk ==> after(x) == Carried(c, c0, s, u, i)(x) + c.k(c0 + i, x) * u(i)
    ensures Dot(c.dk, after, Row(c.q, c0 + i))
         == c.e.exp(Cum(c, c0, i)) * Dot(c.dk, s, Row(c.q, c0 + i)) + Sum(0, i + 1, Times(Row(Attends(c, c0), i), u))
  {
    hide Sum, Dot, Cum, Between, Attends, AlongTerms;
    var key := Row(c.q, c0 + i);
    forall x | 0 <= x < c.dk
      ensures after(x) == c.e.exp(Cum(c, c0, i)) * s(x) + Gathered(c, c0, u, i, i + 1)(x)
    {
      LastWritten(c, c0, u, i, x);
    }
    var f, written := c.e.exp(Cum(c, c0, i)), Gathered(c, c0, u, i, i + 1);
    DotSplits(c.dk, f, s, written, after, key);
    assert Dot(c.dk, after, key) == f * Dot(c.dk, s, key) + Dot(c.dk, written, key);
    CombinationAlong(c, c0, u, i, i + 1, key);
    AttendsAlong(c, c0, u, i);
    assert Dot(c.dk, written, key) == Sum(0, i + 1, Times(Row(Attends(c, c0), i), u));
  }

  lemma AttendsAlong(c: Tokens, c0: int, u: Vec, i: nat)
    ensures Sum(0, i + 1, Times(Row(Attends(c, c0), i), u)) == Sum(0, i + 1, AlongTerms(c, c0, u, i, Row(c.q, c0 + i)))
  {
    hide Sum, Dot, Between;
    var key := Row(c.q, c0 + i);
    forall j | 0 <= j < i + 1
      ensures Times(Row(Attends(c, c0), i), u)(j) == AlongTerms(c, c0, u, i, key)(j)
    {
      DotSymmetric(c.dk, Row(c.k, c0 + j), key);
      SwapThree(Dot(c.dk, key, Row(c.k, c0 + j)), Between(c, c0, i, j), u(j));
    }
    SumEqual(0, i + 1, Times(Row(Attends(c, c0), i), u), AlongTerms(c, c0, u, i, key));
  }

  lemma SwapThree(d: real, f: real, u: real)
    ensures d * f * u == f * u * d
  {
  }

  /** exp(G_last - G) K: the keys as the run's last state sees them. */
  function Kept(c: Tokens, c0: int, n: int): Mat { (j, x) => c.k(c0 + j, x) * Between(c, c0, n - 1, j) }

  /** The state the run leaves: exp(G_last) S and the kept keys combined. */
  lemma RunFinal(c: Tokens, c0: nat, s0: Vec, u: Vec, n: nat, x: int)
    requires c.e.Laws() && 0 < n && Solves(n, Lower(c, c0), Rhs(c, c0, c.State(s0, c0)), u) && 0 <= x < c.dk
    ensures c.State(s0, c0 + n)(x)
         == c.e.exp(Cum(c, c0, n - 1)) * c.State(s0, c0)(x) + Combine(n, u, Kept(c, c0, n))(x)
  {
    hide Sum, Dot, Solves, Tokens.State, Cum, Between;
    var i, s := n - 1, c.State(s0, c0);
    RunStates(c, c0, s0, u, n, i);
    assert c.State(s0, c0 + i + 1)(x) == Carried(c, c0, s, u, i)(x) + c.k(c0 + i, x) * u(i);
    LastWritten(c, c0, u, i, x);
    KeptIs(c, c0, u, n, x);
    assert c.State(s0, c0 + i + 1)(x) == c.e.exp(Cum(c, c0, i)) * s(x) + Sum(0, i + 1, Written(c, c0, u, i, x));
    assert c.State(s0, c0 + i + 1) == c.State(s0, c0 + n);
    assert Sum(0, i + 1, Written(c, c0, u, i, x)) == Sum(0, n, Written(c, c0, u, n - 1, x));
    assert c.State(s0, c0 + n)(x) == c.e.exp(Cum(c, c0, i)) * s(x) + Sum(0, n, Written(c, c0, u, n - 1, x));
  }

  lemma KeptIs(c: Tokens, c0: nat, u: Vec, n: nat, x: int)
    ensures Sum(0, n, Written(c, c0, u, n - 1, x)) == Combine(n, u, Kept(c, c0, n))(x)
  {
    hide Sum, Between;
    forall j | 0 <= j < n
      ensures Written(c, c0, u, n - 1, x)(j) == Times(u, Col(Kept(c, c0, n), x))(j)
    {
      Reorder(Between(c, c0, n - 1, j), c.k(c0 + j, x), u(j));
    }
    SumEqual(0, n, Written(c, c0, u, n - 1, x), Times(u, Col(Kept(c, c0, n), x)));
  }

  lemma Reorder(f: real, k: real, u: real)
    ensures f * (k * u) == u * (k * f)
  {
  }

  // ----- tokens alike -----

  /** The first n tokens of b are those of a from d on. */
  ghost predicate Alike(a: Tokens, b: Tokens, d: int, n: int) {
    && a.e == b.e && a.dk == b.dk
    && (forall t, x :: 0 <= t < n && 0 <= x < a.dk ==> b.q(t, x) == a.q(d + t, x) && b.k(t, x) == a.k(d + t, x))
    && forall t :: 0 <= t < n ==> b.v(t) == a.v(d + t) && b.g(t) == a.g(d + t) && b.beta(t) == a.beta(d + t)
  }

  ghost predicate SameState(dk: int, s: Vec, s': Vec) { forall x :: 0 <= x < dk ==> s(x) == s'(x) }

  /** A sequence continued from the state its first d tokens left ends where the whole does. */
  lemma {:induction false} StateContinues(a: Tokens, b: Tokens, d: nat, s0: Vec, s: Vec, n: nat)
    requires Alike(a, b, d, n) && SameState(a.dk, a.State(s0, d), s)
    ensures SameState(a.dk, a.State(s0, d + n), b.State(s, n))
    decreases n
  {
    hide Sum, Dot, Tokens.Next;
    if n > 0 {
      StateContinues(a, b, d, s0, s, n - 1);
      assert d + n - 1 == d + (n - 1);
      NextAlike(a, b, d, n, a.State(s0, d + (n - 1)), b.State(s, n - 1), n - 1);
    }
  }

  lemma NextAlike(a: Tokens, b: Tokens, d: int, n: int, s: Vec, s': Vec, t: int)
    requires Alike(a, b, d, n) && SameState(a.dk, s, s') && 0 <= t < n
    ensures SameState(a.dk, a.Next(d + t, s), b.Next(t, s'))
  {
    hide Sum, Dot;
    forall x | 0 <= x < a.dk
      ensures a.Decayed(d + t, s)(x) == b.Decayed(t, s')(x) && Row(a.k, d + t)(x) == Row(b.k, t)(x)
    {
      assert b.k(t, x) == a.k(d + t, x);
    }
    DotEqual(a.dk, a.Decayed(d + t, s), Row(a.k, d + t), b.Decayed(t, s'), Row(b.k, t));
    assert a.Correction(d + t, a.Decayed(d + t, s)) == b.Correction(t, b.Decayed(t, s'));
  }

  /** And gives the whole's outputs. */
  lemma OutContinues(a: Tokens, b: Tokens, d: nat, s0: Vec, s: Vec, n: nat, t: nat)
    requires Alike(a, b, d, n) && SameState(a.dk, a.State(s0, d), s) && t < n
    ensures a.Out(s0, d + t) == b.Out(s, t)
  {
    hide Sum, Dot, Tokens.State;
    StateContinues(a, b, d, s0, s, t + 1);
    assert d + t + 1 == d + (t + 1);
    forall x | 0 <= x < a.dk
      ensures Row(a.q, d + t)(x) == Row(b.q, t)(x)
    {
      assert b.q(t, x) == a.q(d + t, x);
    }
    DotEqual(a.dk, a.State(s0, d + t + 1), Row(a.q, d + t), b.State(s, t + 1), Row(b.q, t));
  }
}
