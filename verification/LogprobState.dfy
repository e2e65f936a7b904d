/** A row's pass over the vocabulary: the threads' online log-sum-exp over their columns, their
    parts combined lane by lane and simdgroup by simdgroup, chunk after chunk. */
module LogprobState {
  import opened Sums
  import opened Analysis
  import opened Integers
  import V = Vocabulary

  /** One row: its logits, its target (-1 where it is not valid), the masked tokens. */
  datatype TokenRow = TokenRow(e: Exponential, vocab: nat, z: Vec, masked: int -> bool, target: int) {

    ghost predicate Valid() { e.Laws() && (target == -1 || (0 <= target < vocab && !masked(target))) }
  }

  /** The five sums a pass keeps of the tokens seen. */
  datatype Kind = Weight | WeightedLogit | OthersWeight | Logit

  /** What an unmasked token adds to each: exp z, z exp z, exp z unless it is the target, z. */
  function Adds(r: TokenRow, kind: Kind, j: int): real {
    if r.masked(j) then 0.0 else
    match kind
    case Weight => r.e.exp(r.z(j))
    case WeightedLogit => r.e.exp(r.z(j)) * r.z(j)
    case OthersWeight => if j == r.target then 0.0 else r.e.exp(r.z(j))
    case Logit => r.z(j)
  }

  /** A set of tokens. */
  type Tokens = int -> bool

  function Within(r: TokenRow, kind: Kind, t: Tokens): Vec { j => if t(j) then Adds(r, kind, j) else 0.0 }

  /** A kind's sum over the tokens of t. */
  function Total(r: TokenRow, kind: Kind, t: Tokens): real { Sum(0, r.vocab, Within(r, kind, t)) }

  function Unmasked(r: TokenRow, t: Tokens): Tokens { j => t(j) && !r.masked(j) }

  /** A running state: the maximum m, sum exp(z - m), sum exp(z - m) (z - m), the first sum without
      the target's term, and the sum of the logits. */
  datatype Part = Part(m: real, s: real, a: real, r: real, z: real)

  const NOTHING := Part(LOWEST, 0.0, 0.0, 0.0, 0.0)

  /** The plain sum a state stands for, its maximum undone. */
  function Undone(e: Exponential, p: Part, kind: Kind): real {
    match kind
    case Weight => p.s * e.exp(p.m)
    case WeightedLogit => (p.a + p.s * p.m) * e.exp(p.m)
    case OthersWeight => p.r * e.exp(p.m)
    case Logit => p.z
  }

  /** p is the state of the tokens t. */
  ghost predicate Holds(r: TokenRow, p: Part, t: Tokens) {
    && (forall kind :: Undone(r.e, p, kind) == Total(r, kind, t))
    && IsPeak(p.m, LOWEST, 0, r.vocab, Unmasked(r, t), r.z)
  }

  ghost predicate Disjoint(r: TokenRow, t: Tokens, u: Tokens) {
    forall j :: 0 <= j < r.vocab ==> !(t(j) && u(j))
  }

  /** w is the union of t and u. */
  ghost predicate IsUnion(r: TokenRow, t: Tokens, u: Tokens, w: Tokens) {
    forall j :: 0 <= j < r.vocab ==> (w(j) <==> t(j) || u(j))
  }

  /** The two rows hold the same. */
  ghost predicate SameRow(r: TokenRow, r': TokenRow) {
    && r'.e == r.e && r'.vocab == r.vocab && r'.target == r.target
    && forall j :: 0 <= j < r.vocab ==> r'.z(j) == r.z(j) && r'.masked(j) == r.masked(j)
  }

  lemma SameHolds(r: TokenRow, r': TokenRow, p: Part, t: Tokens)
    requires SameRow(r, r') && Holds(r, p, t)
    ensures Holds(r', p, t)
  {
    hide Sum, Undone;
    forall kind: Kind
      ensures Total(r', kind, t) == Total(r, kind, t)
    {
      forall j | 0 <= j < r.vocab
        ensures Within(r', kind, t)(j) == Within(r, kind, t)(j)
      {
        assert r'.z(j) == r.z(j);
      }
      SumEqual(0, r.vocab, Within(r', kind, t), Within(r, kind, t));
    }
    SamePeak(p.m, LOWEST, 0, r.vocab, Unmasked(r, t), r.z, Unmasked(r', t), r'.z);
  }

  // ----- combining two states -----

  /** The kernels' `dash_combine`: the state of two states' tokens together. */
  function DashCombine(e: Exponential, p: Part, q: Part): Part {
    var m := Max(p.m, q.m);
    var f1, f2 := e.exp(p.m - m), e.exp(q.m - m);
    Part(m, p.s * f1 + q.s * f2, f1 * (p.a + p.s * (p.m - m)) + f2 * (q.a + q.s * (q.m - m)), p.r * f1 + q.r * f2,
         p.z + q.z)
  }

  /** Rescaled to a maximum m, the undone sums stay. */
  lemma RescaledUndone(f: real, g: real, h: real, s: real, a: real, pm: real, m: real)
    requires f * g == h
    ensures (s * f) * g == s * h
    ensures (f * (a + s * (pm - m)) + (s * f) * m) * g == (a + s * pm) * h
  {
    assert (f * (a + s * (pm - m)) + (s * f) * m) == f * (a + s * pm);
    assert f * (a + s * pm) * g == (a + s * pm) * (f * g);
  }

  /** Undone, combining is adding. */
  lemma CombineAdds(e: Exponential, p: Part, q: Part, kind: Kind)
    requires e.Laws()
    ensures Undone(e, DashCombine(e, p, q), kind) == Undone(e, p, kind) + Undone(e, q, kind)
  {
    var m := Max(p.m, q.m);
    var f1, f2, g := e.exp(p.m - m), e.exp(q.m - m), e.exp(m);
    ExpShift(e, p.m, m);
    ExpShift(e, q.m, m);
    match kind {
      case Weight => CombineSums(p.s, q.s, f1, f2, g, e.exp(p.m), e.exp(q.m));
      case WeightedLogit =>
        RescaledUndone(f1, g, e.exp(p.m), p.s, p.a, p.m, m);
        RescaledUndone(f2, g, e.exp(q.m), q.s, q.a, q.m, m);
        CombineTerms(m, g, p.s * f1, q.s * f2, f1 * (p.a + p.s * (p.m - m)), f2 * (q.a + q.s * (q.m - m)));
      case OthersWeight => CombineSums(p.r, q.r, f1, f2, g, e.exp(p.m), e.exp(q.m));
      case Logit =>
    }
  }

  lemma CombineSums(s1: real, s2: real, f1: real, f2: real, g: real, h1: real, h2: real)
    requires f1 * g == h1 && f2 * g == h2
    ensures (s1 * f1 + s2 * f2) * g == s1 * h1 + s2 * h2
  {
    assert (s1 * f1 + s2 * f2) * g == s1 * (f1 * g) + s2 * (f2 * g);
  }

  lemma CombineTerms(m: real, g: real, s1: real, s2: real, a1: real, a2: real)
    ensures ((a1 + a2) + (s1 + s2) * m) * g == (a1 + s1 * m) * g + (a2 + s2 * m) * g
  {
  }

  /** A kind's totals over disjoint sets add. */
  lemma TotalsAdd(r: TokenRow, kind: Kind, t: Tokens, u: Tokens, w: Tokens)
    requires Disjoint(r, t, u) && IsUnion(r, t, u, w)
    ensures Total(r, kind, w) == Total(r, kind, t) + Total(r, kind, u)
  {
    hide Adds;
    SumAdd(0, r.vocab, Within(r, kind, t), Within(r, kind, u), Within(r, kind, w));
  }

  lemma PeaksJoin(r: TokenRow, m1: real, m2: real, t: Tokens, u: Tokens, w: Tokens)
    requires IsUnion(r, t, u, w)
    requires IsPeak(m1, LOWEST, 0, r.vocab, Unmasked(r, t), r.z) && IsPeak(m2, LOWEST, 0, r.vocab, Unmasked(r, u), r.z)
    ensures IsPeak(Max(m1, m2), LOWEST, 0, r.vocab, Unmasked(r, w), r.z)
  {
    var m := Max(m1, m2);
    forall j | 0 <= j < r.vocab && Unmasked(r, w)(j)
      ensures r.z(j) <= m
    {
      assert Unmasked(r, t)(j) || Unmasked(r, u)(j);
    }
    if m != LOWEST {
      if m == m1 {
        var j :| 0 <= j < r.vocab && Unmasked(r, t)(j) && r.z(j) == m1;
        assert Unmasked(r, w)(j);
      } else {
        var j :| 0 <= j < r.vocab && Unmasked(r, u)(j) && r.z(j) == m2;
        assert Unmasked(r, w)(j);
      }
    }
  }

  /** The combined state of two disjoint sets of tokens is the state of their union. */
  lemma CombineIsUnion(r: TokenRow, p: Part, q: Part, t: Tokens, u: Tokens, w: Tokens)
    requires r.e.Laws() && Holds(r, p, t) && Holds(r, q, u) && Disjoint(r, t, u) && IsUnion(r, t, u, w)
    ensures Holds(r, DashCombine(r.e, p, q), w)
  {
    hide Total, Undone;
    forall kind: Kind
      ensures Undone(r.e, DashCombine(r.e, p, q), kind) == Total(r, kind, w)
    {
      hide DashCombine;
      CombineAdds(r.e, p, q, kind);
      TotalsAdd(r, kind, t, u, w);
    }
    PeaksJoin(r, p.m, q.m, t, u, w);
  }

  lemma HoldsNothing(r: TokenRow, t: Tokens)
    requires forall j :: 0 <= j < r.vocab ==> !t(j)
    ensures Holds(r, NOTHING, t)
  {
    forall kind: Kind
      ensures Undone(r.e, NOTHING, kind) == Total(r, kind, t)
    {
      SumZero(0, r.vocab, Within(r, kind, t));
    }
  }

  /** The same set, told otherwise. */
  lemma HoldsSame(r: TokenRow, p: Part, t: Tokens, u: Tokens)
    requires Holds(r, p, t) && forall j :: 0 <= j < r.vocab ==> (t(j) <==> u(j))
    ensures Holds(r, p, u)
  {
    hide Sum, Undone, Adds;
    forall kind: Kind
      ensures Total(r, kind, u) == Total(r, kind, t)
    {
      SumEqual(0, r.vocab, Within(r, kind, t), Within(r, kind, u));
    }
    if p.m != LOWEST {
      var j :| 0 <= j < r.vocab && Unmasked(r, t)(j) && r.z(j) == p.m;
      assert Unmasked(r, u)(j);
    }
    forall j | 0 <= j < r.vocab && Unmasked(r, u)(j)
      ensures r.z(j) <= p.m
    {
      assert Unmasked(r, t)(j);
    }
  }

  // ----- one thread: a token at a time -----

  /** A thread's step over an unmasked token: rescale if it is a new maximum, then add it. */
  function Step(e: Exponential, p: Part, v: real, isTarget: bool): Part {
    var up :=
      if v > p.m then
        var sc := e.exp(p.m - v);
        Part(v, p.s * sc, sc * (p.a + p.s * (p.m - v)), p.r * sc, p.z)
      else p;
    var d := v - up.m;
    var x := e.exp(d);
    Part(up.m, up.s + x, up.a + x * d, if isTarget then up.r else up.r + x, up.z + v)
  }

  /** A single token's state. */
  function Single(r: TokenRow, j: int): Part {
    Part(r.z(j), 1.0, 0.0, if j != r.target then 1.0 else 0.0, r.z(j))
  }

  /** The step is the combination with the token alone. */
  lemma StepIsCombine(r: TokenRow, p: Part, j: int)
    requires r.e.Laws()
    ensures Step(r.e, p, r.z(j), j == r.target) == DashCombine(r.e, p, Single(r, j))
  {
    var v := r.z(j);
    if v > p.m {
      assert r.e.exp(v - v) == 1.0;
    } else {
      assert p.m - p.m == 0.0;
    }
  }

  function Only(j: int): Tokens { i => i == j }

  /** Undone, a token alone is what it adds. */
  lemma SingleTotal(r: TokenRow, kind: Kind, j: int)
    requires 0 <= j < r.vocab && !r.masked(j)
    ensures Undone(r.e, Single(r, j), kind) == Total(r, kind, Only(j))
  {
    SumOnly(0, r.vocab, j, Within(r, kind, Only(j)));
    assert Total(r, kind, Only(j)) == Adds(r, kind, j);
    match kind {
      case Weight => assert Undone(r.e, Single(r, j), kind) == r.e.exp(r.z(j));
      case WeightedLogit => assert (0.0 + 1.0 * r.z(j)) * r.e.exp(r.z(j)) == r.e.exp(r.z(j)) * r.z(j);
      case OthersWeight =>
      case Logit =>
    }
  }

  lemma PeakStep(r: TokenRow, m: real, t: Tokens, j: int, w: Tokens)
    requires 0 <= j < r.vocab && !r.masked(j) && IsUnion(r, t, Only(j), w)
    requires IsPeak(m, LOWEST, 0, r.vocab, Unmasked(r, t), r.z)
    ensures IsPeak(Max(m, r.z(j)), LOWEST, 0, r.vocab, Unmasked(r, w), r.z)
  {
    var top := Max(m, r.z(j));
    forall i | 0 <= i < r.vocab && Unmasked(r, w)(i)
      ensures r.z(i) <= top
    {
      assert Unmasked(r, t)(i) || Only(j)(i);
    }
    if top == r.z(j) {
      assert Unmasked(r, w)(j);
    } else if m != LOWEST {
      var i :| 0 <= i < r.vocab && Unmasked(r, t)(i) && r.z(i) == m;
      assert Unmasked(r, w)(i);
    }
  }

  /** A thread's step over an unmasked token not yet in its set adds it. */
  lemma StepHolds(r: TokenRow, p: Part, t: Tokens, j: int, w: Tokens)
    requires r.e.Laws() && Holds(r, p, t)
    requires 0 <= j < r.vocab && !r.masked(j) && !t(j) && IsUnion(r, t, Only(j), w)
    ensures Holds(r, Step(r.e, p, r.z(j), j == r.target), w)
  {
    hide Total, Undone;
    StepIsCombine(r, p, j);
    forall kind: Kind
      ensures Undone(r.e, Step(r.e, p, r.z(j), j == r.target), kind) == Total(r, kind, w)
    {
      hide DashCombine, Step, Single;
      CombineAdds(r.e, p, Single(r, j), kind);
      SingleTotal(r, kind, j);
      TotalsAdd(r, kind, t, Only(j), w);
    }
    PeakStep(r, p.m, t, j, w);
  }

  /** A masked token changes no set's state. */
  lemma MaskedAddsNothing(r: TokenRow, p: Part, t: Tokens, j: int, w: Tokens)
    requires Holds(r, p, t) && 0 <= j < r.vocab && r.masked(j) && IsUnion(r, t, Only(j), w)
    ensures Holds(r, p, w)
  {
    hide Sum, Undone;
    forall kind: Kind
      ensures Total(r, kind, w) == Total(r, kind, t)
    {
      SumEqual(0, r.vocab, Within(r, kind, t), Within(r, kind, w));
    }
    if p.m != LOWEST {
      var i :| 0 <= i < r.vocab && Unmasked(r, t)(i) && r.z(i) == p.m;
      assert Unmasked(r, w)(i);
    }
    forall i | 0 <= i < r.vocab && Unmasked(r, w)(i)
      ensures r.z(i) <= p.m
    {
      assert Unmasked(r, t)(i);
    }
  }

  // ----- the kernel on one chunk -----

  /** The tokens thread tid of tg walks over in the chunk c0..c1, those before column `upto`. */
  function ThreadTokens(c0: int, c1: int, tg: int, tid: int, upto: int): Tokens
    requires tg > 0
  {
    j => c0 <= j < c1 && (j - c0) % tg == tid && j - c0 < upto
  }

  /** What a chunk kernel is given stands for the row's own: the flags of the masked tokens, and
      where the target lies in the chunk or -1. */
  ghost predicate ChunkInputs(r: TokenRow, flags: int -> bool, t: int, c0: int, c1: int) {
    && (forall j :: 0 <= j < c1 - c0 ==> (flags(j) <==> r.masked(c0 + j)))
    && t == if c0 <= r.target < c1 then r.target - c0 else -1
  }

  /** A thread over its columns of the chunk's logits: tid, tid + tg, ... */
  method ThreadLoop(r: TokenRow, flags: int -> bool, t: int, c0: nat, c1: nat, tg: nat, tid: nat) returns (p: Part)
    requires r.Valid() && c0 <= c1 <= r.vocab && tid < tg
    requires ChunkInputs(r, flags, t, c0, c1)
    ensures Holds(r, p, ThreadTokens(c0, c1, tg, tid, c1 - c0))
  {
    hide Holds, Step;
    p := NOTHING;
    var j := tid;
    forall i | 0 <= i < r.vocab
      ensures !ThreadTokens(c0, c1, tg, tid, tid)(i)
    {
      if 0 <= i - c0 < tid {
        SmallRemainder(i - c0, tg);
      }
    }
    HoldsNothing(r, ThreadTokens(c0, c1, tg, tid, tid));
    SmallRemainder(tid, tg);
    while j < c1 - c0
      invariant tid <= j && j % tg == tid
      invariant Holds(r, p, ThreadTokens(c0, c1, tg, tid, j))
    {
      NextColumn(r, c0, c1, tg, tid, j);
      if flags(j) {
        MaskedAddsNothing(r, p, ThreadTokens(c0, c1, tg, tid, j), c0 + j, ThreadTokens(c0, c1, tg, tid, j + tg));
      } else {
        StepHolds(r, p, ThreadTokens(c0, c1, tg, tid, j), c0 + j, ThreadTokens(c0, c1, tg, tid, j + tg));
        p := Step(r.e, p, r.z(c0 + j), j == t);
      }
      NextRemainder(j, tg, tid);
      j := j + tg;
    }
    HoldsSame(r, p, ThreadTokens(c0, c1, tg, tid, j), ThreadTokens(c0, c1, tg, tid, c1 - c0));
  }

  lemma NextRemainder(j: int, n: int, tid: int)
    requires 0 <= tid < n && j % n == tid
    ensures (j + n) % n == tid
  {
    V.QuotientIs(j + n, n, j / n + 1);
  }

  /** From one of its columns to the next a thread meets just the one. */
  lemma NextColumn(r: TokenRow, c0: int, c1: int, tg: int, tid: int, j: int)
    requires 0 <= tid < tg && 0 <= j < c1 - c0 && j % tg == tid
    ensures IsUnion(r, ThreadTokens(c0, c1, tg, tid, j), Only(c0 + j), ThreadTokens(c0, c1, tg, tid, j + tg))
    ensures !ThreadTokens(c0, c1, tg, tid, j)(c0 + j)
  {
    forall i | 0 <= i < r.vocab
      ensures ThreadTokens(c0, c1, tg, tid, j + tg)(i)
         <==> (ThreadTokens(c0, c1, tg, tid, j)(i) || Only(c0 + j)(i))
    {
      if j < i - c0 < j + tg {
        StrandGap(j, i - c0, tg, tid);
      }
    }
  }

  /** The tokens gathered at lane l of simdgroup g when the lanes that meet are `width` apart. */
  function LaneTokens(c0: int, c1: int, tg: int, g: int, width: int, l: int): Tokens
    requires tg > 0 && width > 0
  {
    j => c0 <= j < c1 && ((j - c0) % tg) / LANES == g && (((j - c0) % tg) % LANES) % width == l
  }

  function GroupTokens(c0: int, c1: int, tg: int, g: int): Tokens
    requires tg > 0
  {
    j => c0 <= j < c1 && ((j - c0) % tg) / LANES == g
  }

  /** Halving the distance, each residue takes in one other. */
  lemma Halved(x: int, off: int, l: int)
    requires 0 < off && 0 <= x && 0 <= l < off
    ensures x % off == l <==> x % (2 * off) == l || x % (2 * off) == l + off
  {
    var q, y := x / (2 * off), x % (2 * off);
    assert x == q * (2 * off) + y;
    TwiceAsMany(q, off);
    if y < off {
      DivUnique(x, off, 2 * q, y);
    } else {
      DivUnique(x, off, 2 * q + 1, y - off);
    }
  }

  lemma TwiceAsMany(q: int, off: int)
    ensures q * (2 * off) == (2 * q) * off
    ensures (2 * q + 1) * off == (2 * q) * off + off
  {
  }

  lemma LanesMeet(r: TokenRow, p: Part, q: Part, c0: int, c1: int, tg: int, g: int, off: int, l: int)
    requires r.e.Laws() && tg > 0 && 0 <= l < off
    requires Holds(r, p, LaneTokens(c0, c1, tg, g, 2 * off, l))
      && Holds(r, q, LaneTokens(c0, c1, tg, g, 2 * off, l + off))
    ensures Holds(r, DashCombine(r.e, p, q), LaneTokens(c0, c1, tg, g, off, l))
  {
    hide Holds, DashCombine;
    var t, u, w := LaneTokens(c0, c1, tg, g, 2 * off, l), LaneTokens(c0, c1, tg, g, 2 * off, l + off),
                   LaneTokens(c0, c1, tg, g, off, l);
    forall j | 0 <= j < r.vocab
      ensures w(j) <==> t(j) || u(j)
    {
      Halved(((j - c0) % tg) % LANES, off, l);
    }
    CombineIsUnion(r, p, q, t, u, w);
  }

  /** The lanes meet: each takes in the one `off` after it, for off = 16, 8, 4, 2, 1. What a lane
      reads past the last, `beyond`, reaches no result. */
  method ShuffleDown(r: TokenRow, lanes: seq<Part>, beyond: (int, int) -> Part, ghost c0: int, ghost c1: int,
                     ghost tg: int, ghost g: int)
    returns (first: Part)
    requires r.Valid() && tg > 0 && |lanes| == LANES
    requires forall l :: 0 <= l < LANES ==> Holds(r, lanes[l], LaneTokens(c0, c1, tg, g, LANES, l))
    ensures Holds(r, first, GroupTokens(c0, c1, tg, g))
  {
    hide Holds, DashCombine;
    var parts := lanes;
    var off := 16;
    while off > 0
      invariant off == 16 || off == 8 || off == 4 || off == 2 || off == 1 || off == 0
      invariant |parts| == LANES
      invariant forall l :: 0 <= l < (if off > 0 then 2 * off else 1) ==>
                  Holds(r, parts[l], LaneTokens(c0, c1, tg, g, if off > 0 then 2 * off else 1, l))
    {
      var next := seq(LANES, l requires 0 <= l < LANES && |parts| == LANES =>
        DashCombine(r.e, parts[l], if l + off < LANES then parts[l + off] else beyond(off, l)));
      forall l | 0 <= l < off
        ensures Holds(r, next[l], LaneTokens(c0, c1, tg, g, off, l))
      {
        LanesMeet(r, parts[l], parts[l + off], c0, c1, tg, g, off, l);
      }
      parts := next;
      off := off / 2;
    }
    first := parts[0];
    HoldsSame(r, first, LaneTokens(c0, c1, tg, g, 1, 0), GroupTokens(c0, c1, tg, g));
  }

  /** The tokens before the chunk c0..c1 and those of its first `groups` simdgroups. */
  function SeenTokens(c0: int, c1: int, tg: int, groups: int): Tokens
    requires tg > 0
  {
    j => j < c0 || (j < c1 && ((j - c0) % tg) / LANES < groups)
  }

  function Before(c: int): Tokens { j => j < c }

  lemma ThreadIsLane(r: TokenRow, p: Part, c0: int, c1: int, tg: int, g: int, l: int)
    requires tg > 0 && 0 <= g && 0 <= l < LANES
    requires Holds(r, p, ThreadTokens(c0, c1, tg, g * LANES + l, c1 - c0))
    ensures Holds(r, p, LaneTokens(c0, c1, tg, g, LANES, l))
  {
    hide Holds;
    HoldsSame(r, p, ThreadTokens(c0, c1, tg, g * LANES + l, c1 - c0), LaneTokens(c0, c1, tg, g, LANES, l));
  }

  /** One simdgroup: its threads' loops, then its lanes' meeting. */
  method Simdgroup(r: TokenRow, flags: int -> bool, t: int, c0: nat, c1: nat, groups: nat, g: nat,
                   beyond: (int, int) -> Part)
    returns (p: Part)
    requires r.Valid() && c0 <= c1 <= r.vocab && g < groups && ChunkInputs(r, flags, t, c0, c1)
    ensures Holds(r, p, GroupTokens(c0, c1, groups * LANES, g))
  {
    hide Holds;
    var lanes: seq<Part> := [];
    while |lanes| < LANES
      invariant |lanes| <= LANES
      invariant forall l :: 0 <= l < |lanes| ==> Holds(r, lanes[l], LaneTokens(c0, c1, groups * LANES, g, LANES, l))
    {
      var l := |lanes|;
      var part := ThreadLoop(r, flags, t, c0, c1, groups * LANES, g * LANES + l);
      ThreadIsLane(r, part, c0, c1, groups * LANES, g, l);
      lanes := lanes + [part];
    }
    p := ShuffleDown(r, lanes, beyond, c0, c1, groups * LANES, g);
  }

  /** The state kernel on one chunk: the simdgroups' parts combined into the row's running state, and
      the target's logit added where the target lies in the chunk. */
  method StateKernel(r: TokenRow, flags: int -> bool, t: int, c0: nat, c1: nat, groups: nat, beyond: (int, int) -> Part,
                     st: Part, zt: real)
    returns (newSt: Part, newZt: real)
    requires r.Valid() && c0 <= c1 <= r.vocab && groups > 0 && ChunkInputs(r, flags, t, c0, c1)
    requires Holds(r, st, Before(c0)) && zt == TargetLogit(r, c0)
    ensures Holds(r, newSt, Before(c1)) && newZt == TargetLogit(r, c1)
  {
    hide Holds, DashCombine;
    var tg := groups * LANES;
    newSt := st;
    HoldsSame(r, st, Before(c0), SeenTokens(c0, c1, tg, 0));
    for g := 0 to groups
      invariant Holds(r, newSt, SeenTokens(c0, c1, tg, g))
    {
      var p := Simdgroup(r, flags, t, c0, c1, groups, g, beyond);
      CombineIsUnion(r, newSt, p, SeenTokens(c0, c1, tg, g), GroupTokens(c0, c1, tg, g), SeenTokens(c0, c1, tg, g + 1));
      newSt := DashCombine(r.e, newSt, p);
    }
    HoldsSame(r, newSt, SeenTokens(c0, c1, tg, groups), Before(c1));
    newZt := zt + (if t >= 0 then r.z(c0 + t) else 0.0);
  }

  /** The target's logit once the tokens before c are seen, 0 until then and for no target. */
  function TargetLogit(r: TokenRow, c: int): real { if 0 <= r.target < c then r.z(r.target) else 0.0 }

  // ----- the whole pass -----

  /** Row i of a vocabulary with logits z. */
  function RowOf(v: V.Vocabulary, e: Exponential, i: nat, z: Vec): TokenRow
    requires i < |v.targets| == |v.valid|
  {
    TokenRow(e, v.vocab, z, j => v.Masked(j), if v.valid[i] then v.targets[i] else -1)
  }

  /** A row of a well-formed vocabulary is valid, and has a token unless the vocabulary is empty. */
  lemma RowIsValid(v: V.Vocabulary, e: Exponential, i: nat, z: Vec)
    requires v.WellFormed() && e.Laws() && i < |v.targets|
    ensures RowOf(v, e, i, z).Valid()
    ensures v.vocab > 0 ==> SomeToken(RowOf(v, e, i, z))
    ensures RowOf(v, e, i, z).target >= 0 <==> v.valid[i]
  {
    var r := RowOf(v, e, i, z);
    if v.vocab > 0 {
      var j :| 0 <= j < v.vocab && !v.Masked(j);
      assert !r.masked(j);
    }
  }

  /** What the vocabulary hands the kernels of a chunk stands for the row's own. */
  lemma ChunkInputsExact(v: V.Vocabulary, e: Exponential, i: nat, z: Vec, c0: nat, c1: int)
    requires i < |v.targets| == |v.valid| && V.Increasing(v.masked)
    ensures ChunkInputs(RowOf(v, e, i, z), j => v.KernelMasks(c0, c1, j), v.LocalTarget(i, c0, c1), c0, c1)
  {
    forall j | 0 <= j < c1 - c0
      ensures v.KernelMasks(c0, c1, j) <==> RowOf(v, e, i, z).masked(c0 + j)
    {
      V.KernelMasksExact(v, c0, c1, j);
    }
  }

  /** The pass over the vocabulary for one row: after it the state is that of every token. */
  method Pass(v: V.Vocabulary, e: Exponential, i: nat, z: Vec, groups: nat, beyond: (int, int) -> Part)
    returns (st: Part, zt: real)
    requires v.WellFormed() && e.Laws() && i < |v.targets| && groups > 0
    ensures Holds(RowOf(v, e, i, z), st, Before(v.vocab)) && zt == TargetLogit(RowOf(v, e, i, z), v.vocab)
  {
    hide Holds;
    var r := RowOf(v, e, i, z);
    RowIsValid(v, e, i, z);
    var chunks := v.ChunkList();
    st, zt := NOTHING, 0.0;
    HoldsNothing(r, Before(0));
    for k := 0 to |chunks|
      invariant Holds(r, st, Before(if k == 0 then 0 else chunks[k - 1].1))
      invariant zt == TargetLogit(r, if k == 0 then 0 else chunks[k - 1].1)
    {
      var (c0, c1) := chunks[k];
      assert c0 == if k == 0 then 0 else chunks[k - 1].1;
      ChunkInputsExact(v, e, i, z, c0, c1);
      st, zt := StateKernel(r, j => v.KernelMasks(c0, c1, j), v.LocalTarget(i, c0, c1), c0, c1, groups, beyond, st, zt);
    }
  }

  // ----- what the state gives -----

  function All(): Tokens { j => true }

  /** sum exp z over the unmasked tokens. */
  function Z(r: TokenRow): real { Total(r, Weight, All()) }

  /** The distribution over the unmasked tokens: p = exp(z - lse), and its logarithm. */
  function Probability(r: TokenRow, j: int): real { if r.masked(j) then 0.0 else r.e.exp(r.z(j) - r.e.ln(Z(r))) }

  function LogProbability(r: TokenRow, j: int): real { r.z(j) - r.e.ln(Z(r)) }

  function EntropyTerms(r: TokenRow): Vec { j => Probability(r, j) * LogProbability(r, j) }

  /** The contract's log-probability of the target and entropy. */
  function LogprobOf(r: TokenRow): Extended {
    if r.target < 0 then NegInf else Fin(LogProbability(r, r.target))
  }

  function EntropyOf(r: TokenRow): real { -Sum(0, r.vocab, EntropyTerms(r)) }

  ghost predicate SomeToken(r: TokenRow) { exists j :: 0 <= j < r.vocab && !r.masked(j) }

  /** A token's terms in the sums over every token. */
  lemma TermsOf(r: TokenRow, j: int)
    ensures Within(r, Weight, All())(j) == if r.masked(j) then 0.0 else r.e.exp(r.z(j))
    ensures Within(r, WeightedLogit, All())(j) == if r.masked(j) then 0.0 else r.e.exp(r.z(j)) * r.z(j)
    ensures Within(r, OthersWeight, All())(j) == if r.masked(j) || j == r.target then 0.0 else r.e.exp(r.z(j))
    ensures Within(r, Logit, All())(j) == if r.masked(j) then 0.0 else r.z(j)
  {
    assert All()(j);
  }

  lemma ZIsPositive(r: TokenRow)
    requires r.e.Laws() && SomeToken(r)
    ensures Z(r) > 0.0
  {
    hide Within;
    var j :| 0 <= j < r.vocab && !r.masked(j);
    forall i
      ensures Within(r, Weight, All())(i) >= 0.0
    {
      TermsOf(r, i);
    }
    TermsOf(r, j);
    SumAtLeast(0, r.vocab, j, Within(r, Weight, All()));
  }

  /** `forward`: the log-probability and the entropy from the pass's state. */
  function Forward(e: Exponential, st: Part, zt: real, valid: bool): (Extended, real)
    requires st.s > 0.0
  {
    var lnS := e.ln(st.s);
    var lse := st.m + lnS;
    (if valid then Fin(zt - lse) else NegInf, lnS - st.a / st.s)
  }

  /** -sum p log p = lse - sum p z. */
  lemma EntropyIs(r: TokenRow)
    requires r.e.Laws() && SomeToken(r)
    ensures Z(r) > 0.0
    ensures EntropyOf(r) == r.e.ln(Z(r)) - Total(r, WeightedLogit, All()) / Z(r)
  {
    hide Sum;
    ZIsPositive(r);
    var zz := Z(r);
    forall j | 0 <= j < r.vocab
      ensures EntropyTerms(r)(j)
           == (1.0 / zz) * Within(r, WeightedLogit, All())(j) + (-r.e.ln(zz) / zz) * Within(r, Weight, All())(j)
    {
      EntropyTermIs(r, j);
    }
    SumLinear(0, r.vocab, 1.0 / zz, Within(r, WeightedLogit, All()), -r.e.ln(zz) / zz, Within(r, Weight, All()),
              EntropyTerms(r));
    EntropySum(Total(r, WeightedLogit, All()), zz, r.e.ln(zz));
  }

  lemma EntropySum(a: real, z: real, l: real)
    requires z > 0.0
    ensures -((1.0 / z) * a + (-l / z) * z) == l - a / z
  {
    Ratio(a, z);
    var t := -l / z;
    assert t * z == -l;
  }

  lemma EntropyTermIs(r: TokenRow, j: int)
    requires r.e.Laws() && Z(r) > 0.0
    ensures EntropyTerms(r)(j) == (1.0 / Z(r)) * Within(r, WeightedLogit, All())(j)
                                  + (-r.e.ln(Z(r)) / Z(r)) * Within(r, Weight, All())(j)
  {
    hide Z, Within, Adds;
    var z, l := Z(r), r.e.ln(Z(r));
    TermsOf(r, j);
    if !r.masked(j) {
      ExpOfDifference(r.e, r.z(j), z);
      EntropyArithmetic(r.e.exp(r.z(j)), r.z(j), z, l);
    } else {
      assert EntropyTerms(r)(j) == 0.0 * LogProbability(r, j);
    }
  }

  lemma EntropyArithmetic(w: real, x: real, z: real, l: real)
    requires z > 0.0
    ensures (w / z) * (x - l) == (1.0 / z) * (w * x) + (-l / z) * w
  {
    var u := 1.0 / z;
    Ratio(w, z);
    Ratio(-l, z);
    assert (u * w) * (x - l) == u * (w * x) + (u * -l) * w;
  }

  /** What a pass leaves is the contract's: the state's sums equal their definitions over the unmasked
      tokens, whatever the chunks and the threads, and the log-probability and the entropy formed from
      them are the contract's. */
  lemma PassGivesContract(r: TokenRow, st: Part, zt: real)
    requires r.Valid() && SomeToken(r) && Holds(r, st, Before(r.vocab)) && zt == TargetLogit(r, r.vocab)
    ensures st.s > 0.0 && st.s * r.e.exp(st.m) == Z(r)
    ensures st.r * r.e.exp(st.m) == Z(r) - (if r.target >= 0 then r.e.exp(r.z(r.target)) else 0.0)
    ensures st.z == Total(r, Logit, All())
    ensures st.m + r.e.ln(st.s) == r.e.ln(Z(r))
    ensures Forward(r.e, st, zt, r.target >= 0) == (LogprobOf(r), EntropyOf(r))
  {
    hide Sum, EntropyOf, Adds, Total, Within;
    HoldsSame(r, st, Before(r.vocab), All());
    ZIsPositive(r);
    assert Undone(r.e, st, Weight) == Total(r, Weight, All());
    assert Undone(r.e, st, OthersWeight) == Total(r, OthersWeight, All());
    assert Undone(r.e, st, Logit) == Total(r, Logit, All());
    PositiveFactor(st.s, r.e.exp(st.m), Z(r));
    LnOfShifted(r.e, st.m, st.s, Z(r));
    OthersTotal(r);
    PassEntropy(r, st);
  }

  lemma PassEntropy(r: TokenRow, st: Part)
    requires r.Valid() && SomeToken(r) && Holds(r, st, All())
    requires st.s > 0.0 && st.s * r.e.exp(st.m) == Z(r) && st.m + r.e.ln(st.s) == r.e.ln(Z(r))
    ensures r.e.ln(st.s) - st.a / st.s == EntropyOf(r)
  {
    hide Sum, EntropyOf, Adds, Total, Within, IsPeak;
    assert Undone(r.e, st, WeightedLogit) == Total(r, WeightedLogit, All());
    EntropyIs(r);
    EntropyFromState(st.a, st.s, st.m, r.e.exp(st.m), Z(r), Total(r, WeightedLogit, All()));
  }

  lemma PositiveFactor(s: real, g: real, z: real)
    requires g > 0.0 && z > 0.0 && s * g == z
    ensures s > 0.0
  {
    if s <= 0.0 {
      NonNegativeProduct(-s, g);
    }
  }

  lemma NonNegativeProduct(a: real, b: real)
    requires a >= 0.0 && b >= 0.0
    ensures a * b >= 0.0
  {
  }

  lemma EntropyFromState(a: real, s: real, m: real, g: real, z: real, w: real)
    requires g > 0.0 && s > 0.0 && z == s * g && w == (a + s * m) * g
    ensures z != 0.0 && w / z == a / s + m
  {
    assert (a / s + m) * s == a + s * m;
    var t := a / s + m;
    assert w == (t * s) * g;
    assert (t * s) * g == t * z;
  }

  lemma OthersTotal(r: TokenRow)
    requires r.Valid()
    ensures Total(r, OthersWeight, All()) == Z(r) - (if r.target >= 0 then r.e.exp(r.z(r.target)) else 0.0)
  {
    hide Within;
    var others, all := Within(r, OthersWeight, All()), Within(r, Weight, All());
    var only: Vec := j => if j == r.target then r.e.exp(r.z(j)) else 0.0;
    forall j | 0 <= j < r.vocab
      ensures all(j) == others(j) + only(j)
    {
      TermsOf(r, j);
    }
    SumAdd(0, r.vocab, others, only, all);
    if r.target >= 0 {
      SumOnly(0, r.vocab, r.target, only);
    } else {
      SumZero(0, r.vocab, only);
    }
  }
}
