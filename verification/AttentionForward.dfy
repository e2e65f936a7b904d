/** The blocked forward pass: blocks of queries over the key tiles they see, an online softmax per
    row of a tile, the output rescaled as the row's maximum grows. */
module AttentionForward {
  import opened Sums
  import opened Analysis
  import opened Integers
  import opened AttentionBand
  import opened AttentionContract

  /** The terms a tile adds to a row's sum. */
  function Exponentials(e: Exponential, vis: int -> bool, scores: Vec): Vec {
    c => if vis(c) then e.exp(scores(c)) else 0.0
  }

  function Shifted(e: Exponential, vis: int -> bool, scores: Vec, m: real): Vec {
    c => if vis(c) then e.exp(scores(c) - m) else 0.0
  }

  lemma ShiftedAt(e: Exponential, vis: int -> bool, scores: Vec, m: real, c: int)
    ensures Shifted(e, vis, scores, m)(c) == if vis(c) then e.exp(scores(c) - m) else 0.0
  {
  }

  lemma ShiftedSum(e: Exponential, vis: int -> bool, scores: Vec, m: real, lo: int, hi: int)
    requires e.Laws()
    ensures Sum(lo, hi, Shifted(e, vis, scores, m)) * e.exp(m) == Sum(lo, hi, Exponentials(e, vis, scores))
  {
    hide Sum;
    forall c | lo <= c < hi
      ensures Exponentials(e, vis, scores)(c) == e.exp(m) * Shifted(e, vis, scores, m)(c)
    {
      ExpShift(e, scores(c), m);
    }
    SumScale(lo, hi, e.exp(m), Shifted(e, vis, scores, m), Exponentials(e, vis, scores));
  }

  /** The row's maximum over a tile: a simdgroup's lanes take every 32nd column each, then meet. */
  method LaneMax(scores: Vec, vis: int -> bool, cols: nat) returns (mx: real)
    ensures IsPeak(mx, LOWEST, 0, cols, vis, scores)
  {
    mx := LOWEST;
    for lane := 0 to LANES
      invariant LOWEST <= mx
      invariant forall c :: 0 <= c < cols && c % LANES < lane && vis(c) ==> scores(c) <= mx
      invariant mx == LOWEST || exists c :: 0 <= c < cols && vis(c) && scores(c) == mx
    {
      var top := LOWEST;
      var c := lane;
      while c < cols
        invariant lane <= c && c % LANES == lane
        invariant LOWEST <= top
        invariant forall x :: 0 <= x < c && x < cols && x % LANES == lane && vis(x) ==> scores(x) <= top
        invariant top == LOWEST || exists x :: 0 <= x < cols && vis(x) && scores(x) == top
      {
        if vis(c) {
          top := Max(top, scores(c));
        }
        c := c + LANES;
      }
      mx := Max(mx, top);
    }
  }

  /** One lane's columns: each exponential written, and their sum. */
  method LaneColumns(e: Exponential, scores: Vec, vis: int -> bool, m: real, lane: nat, buffer: array<real>)
    returns (part: real)
    requires lane < LANES
    modifies buffer
    ensures forall x :: 0 <= x < buffer.Length ==>
              buffer[x] == if x % LANES == lane then Shifted(e, vis, scores, m)(x) else old(buffer[x])
    ensures part == Sum(0, buffer.Length, Strand(0, LANES, lane, Shifted(e, vis, scores, m)))
  {
    hide Sum, Shifted, Strand;
    ghost var terms := Shifted(e, vis, scores, m);
    part := 0.0;
    var c := lane;
    StrandStart(0, LANES, lane, terms, if lane < buffer.Length then lane else buffer.Length);
    while c < buffer.Length
      invariant lane <= c && c % LANES == lane
      invariant part == Sum(0, if c < buffer.Length then c else buffer.Length, Strand(0, LANES, lane, terms))
      invariant forall x :: 0 <= x < buffer.Length ==>
                  buffer[x] == if x < c && x % LANES == lane then terms(x) else old(buffer[x])
    {
      var p := if vis(c) then e.exp(scores(c) - m) else 0.0;
      ShiftedAt(e, vis, scores, m, c);
      buffer[c] := p;
      StrandStep(0, LANES, lane, terms, c, buffer.Length);
      part := part + p;
      c := c + LANES;
    }
  }

  /** The row's exponentials over a tile, each lane writing and summing its own columns. */
  method LaneExponentials(e: Exponential, scores: Vec, vis: int -> bool, cols: nat, m: real)
    returns (probs: seq<real>, sum: real)
    ensures |probs| == cols
    ensures forall c :: 0 <= c < cols ==> probs[c] == Shifted(e, vis, scores, m)(c)
    ensures sum == Sum(0, cols, Shifted(e, vis, scores, m))
  {
    var buffer := new real[cols];
    ghost var terms := Shifted(e, vis, scores, m);
    sum := 0.0;
    ghost var parts: Vec := r => if 0 <= r < LANES then Sum(0, cols, Strand(0, LANES, r, terms)) else 0.0;
    for lane := 0 to LANES
      invariant sum == Sum(0, lane, parts)
      invariant forall c :: 0 <= c < cols && c % LANES < lane ==> buffer[c] == terms(c)
    {
      var part := LaneColumns(e, scores, vis, m, lane, buffer);
      sum := sum + part;
    }
    probs := buffer[..];
    Strands(0, cols, LANES, terms, parts);
  }

  /** The softmax kernel on one row of a tile. */
  method SoftmaxRow(e: Exponential, scores: Vec, vis: int -> bool, cols: nat, mIn: real, sIn: real)
    returns (probs: seq<real>, mOut: real, sOut: real, alpha: real)
    requires e.Laws()
    ensures |probs| == cols
    ensures forall c :: 0 <= c < cols ==> probs[c] == Shifted(e, vis, scores, mOut)(c)
    ensures IsPeak(mOut, Max(mIn, LOWEST), 0, cols, vis, scores)
    ensures sOut * e.exp(mOut) == sIn * e.exp(mIn) + Sum(0, cols, Exponentials(e, vis, scores))
    ensures alpha * e.exp(mOut) == e.exp(mIn)
  {
    hide Sum;
    var mx := LaneMax(scores, vis, cols);
    mOut := Max(mIn, mx);
    var sum;
    probs, sum := LaneExponentials(e, scores, vis, cols, mOut);
    alpha := e.exp(mIn - mOut);
    sOut := sIn * alpha + sum;
    ShiftedSum(e, vis, scores, mOut, 0, cols);
    ExpShift(e, mIn, mOut);
    assert sOut * e.exp(mOut) == sIn * (alpha * e.exp(mOut)) + sum * e.exp(mOut);
  }

  /** The row r of a block of qn queries per head: its head and its query. */
  function HeadOf(r: int, qn: int): int
    requires qn > 0
  {
    r / qn
  }

  function QueryOf(q0: int, r: int, qn: int): int
    requires qn > 0
  {
    q0 + r % qn
  }

  function Visibles(c: Call, n: int, i: int): int -> bool
    requires c.heads > 0
  {
    j => c.Visible(n, i, j)
  }

  /** What row r of a tile sees of its columns, by the kernels' test. */
  function TileVisibles(c: Call, q0: int, q1: int, k0: int, r: nat): int -> bool
    requires q0 < q1 && c.heads > 0
    requires c.heads * (q1 - q0) > 0
  {
    col => col >= 0 && DashVisible(KernelGeometry(c.geom, q0, q1, k0, c.heads * (q1 - q0)), c.keep, r, col)
  }

  /** What the passes so far leave of a row: its sum and its output, scaled by exp(m), are plain
      sums over the keys seen, and m is their greatest score. */
  ghost predicate RowTracks(c: Call, n: int, i: int, seen: int, m: real, s: real, o: Vec)
    requires c.Valid()
  {
    && s * c.e.exp(m) == Sum(0, seen, c.Weights(n, i))
    && (forall x :: 0 <= x < c.d ==> o(x) * c.e.exp(m) == Sum(0, seen, c.RawTerms(n, i, x)))
    && IsPeak(m, LOWEST, 0, seen, Visibles(c, n, i), c.Scores(n, i))
  }

  /** What one tile of scores, keys k0..k1, does to the state of a row. */
  ghost predicate TileStep(c: Call, n: int, i: int, k0: int, k1: int, m: real, s: real,
                           p: seq<real>, newM: real, newS: real, alpha: real)
    requires c.Valid()
  {
    && |p| == k1 - k0
    && newS * c.e.exp(newM) == s * c.e.exp(m) + Sum(k0, k1, c.Weights(n, i))
    && (forall j :: k0 <= j < k1 ==> p[j - k0] * c.e.exp(newM) == c.Weights(n, i)(j))
    && IsPeak(newM, Max(m, LOWEST), k0, k1, Visibles(c, n, i), c.Scores(n, i))
    && alpha * c.e.exp(newM) == c.e.exp(m)
  }

  /** A tile's columns hold the scores of its keys. */
  ghost predicate HoldScores(c: Call, n: int, i: int, k0: int, k1: int, scores: Vec)
    requires c.Valid()
  {
    forall j :: k0 <= j < k1 ==> scores(j - k0) == c.Scores(n, i)(j)
  }

  /** A tile's columns are visible as its keys are. */
  ghost predicate SeeAlike(c: Call, n: int, i: int, k0: int, k1: int, vis: int -> bool)
    requires c.Valid()
  {
    forall j :: k0 <= j < k1 ==> vis(j - k0) == Visibles(c, n, i)(j)
  }

  lemma TileVisiblesExact(c: Call, q0: int, q1: int, k0: nat, k1: int, r: nat)
    requires q0 < q1 && c.Valid() && k0 <= k1
    ensures c.heads * (q1 - q0) > 0
    ensures SeeAlike(c, HeadOf(r, q1 - q0), QueryOf(q0, r, q1 - q0), k0, k1, TileVisibles(c, q0, q1, k0, r))
  {
    DivDiv(r, q1 - q0, c.heads);
    var vis, visAt := TileVisibles(c, q0, q1, k0, r), Visibles(c, HeadOf(r, q1 - q0), QueryOf(q0, r, q1 - q0));
    forall j | k0 <= j < k1
      ensures vis(j - k0) == visAt(j)
    {
      DashVisibleIsBand(c.geom, c.keep, c.heads, q0, q1, k0, r, j - k0);
    }
  }

  /** The terms of a tile's columns are the weights of its keys. */
  lemma ExponentialsAreWeights(c: Call, n: int, i: int, k0: int, k1: int, vis: int -> bool, scores: Vec)
    requires c.Valid() && k0 <= k1
    requires SeeAlike(c, n, i, k0, k1, vis) && HoldScores(c, n, i, k0, k1, scores)
    ensures Sum(0, k1 - k0, Exponentials(c.e, vis, scores)) == Sum(k0, k1, c.Weights(n, i))
    ensures forall j :: k0 <= j < k1 ==> Exponentials(c.e, vis, scores)(j - k0) == c.Weights(n, i)(j)
  {
    hide Sum;
    forall j | k0 <= j < k1
      ensures Exponentials(c.e, vis, scores)(j - k0) == c.Weights(n, i)(j)
    {
      assert vis(j - k0) == Visibles(c, n, i)(j) && scores(j - k0) == c.Scores(n, i)(j);
    }
    forall col | 0 <= col < k1 - k0
      ensures Exponentials(c.e, vis, scores)(col) == c.Weights(n, i)(col + k0)
    {
      assert Exponentials(c.e, vis, scores)(col + k0 - k0) == c.Weights(n, i)(col + k0);
    }
    SumShift(0, k1 - k0, k0, c.Weights(n, i), Exponentials(c.e, vis, scores));
  }

  lemma ShiftedAreScaled(e: Exponential, vis: int -> bool, scores: Vec, m: real, col: int)
    requires e.Laws()
    ensures Shifted(e, vis, scores, m)(col) * e.exp(m) == Exponentials(e, vis, scores)(col)
  {
    ExpShift(e, scores(col), m);
  }

  lemma PeakMoves(m: real, floor: real, k0: int, k1: int, vis: int -> bool, f: Vec, visAt: int -> bool, fAt: Vec)
    requires IsPeak(m, floor, 0, k1 - k0, vis, f)
    requires forall j :: k0 <= j < k1 ==> vis(j - k0) == visAt(j)
    requires forall j :: k0 <= j < k1 ==> f(j - k0) == fAt(j)
    ensures IsPeak(m, floor, k0, k1, visAt, fAt)
  {
    if m != floor {
      var col :| 0 <= col < k1 - k0 && vis(col) && f(col) == m;
      assert vis(k0 + col - k0) == visAt(k0 + col) && f(k0 + col - k0) == fAt(k0 + col);
    }
  }

  /** The softmax kernel on one row of a tile, as the step of the row's head and query. */
  method TileRow(c: Call, q0: int, q1: int, k0: nat, k1: int, r: nat, scores: Vec, m: real, s: real)
    returns (p: seq<real>, newM: real, newS: real, alpha: real)
    requires c.Valid() && q0 < q1 && k0 <= k1
    requires HoldScores(c, HeadOf(r, q1 - q0), QueryOf(q0, r, q1 - q0), k0, k1, scores)
    ensures TileStep(c, HeadOf(r, q1 - q0), QueryOf(q0, r, q1 - q0), k0, k1, m, s, p, newM, newS, alpha)
  {
    TileVisiblesExact(c, q0, q1, k0, k1, r);
    var vis := TileVisibles(c, q0, q1, k0, r);
    p, newM, newS, alpha := SoftmaxRow(c.e, scores, vis, k1 - k0, m, s);
    RowIsTileStep(c, HeadOf(r, q1 - q0), QueryOf(q0, r, q1 - q0), k0, k1, vis, scores, m, s,
                  p, newM, newS, alpha);
  }

  lemma ProbsAreWeights(c: Call, n: int, i: int, k0: int, k1: int, vis: int -> bool, scores: Vec,
                        p: seq<real>, m: real)
    requires c.Valid() && k0 <= k1 && |p| == k1 - k0
    requires SeeAlike(c, n, i, k0, k1, vis) && HoldScores(c, n, i, k0, k1, scores)
    requires forall col :: 0 <= col < |p| ==> p[col] == Shifted(c.e, vis, scores, m)(col)
    ensures forall j :: k0 <= j < k1 ==> p[j - k0] * c.e.exp(m) == c.Weights(n, i)(j)
  {
    hide Sum;
    ExponentialsAreWeights(c, n, i, k0, k1, vis, scores);
    forall j | k0 <= j < k1
      ensures p[j - k0] * c.e.exp(m) == c.Weights(n, i)(j)
    {
      ShiftedAreScaled(c.e, vis, scores, m, j - k0);
    }
  }

  /** What the kernel does to a row whose columns stand for the keys k0..k1 is that row's step. */
  lemma RowIsTileStep(c: Call, n: int, i: int, k0: int, k1: int, vis: int -> bool, scores: Vec,
                      m: real, s: real, p: seq<real>, newM: real, newS: real, alpha: real)
    requires c.Valid() && k0 <= k1
    requires SeeAlike(c, n, i, k0, k1, vis) && HoldScores(c, n, i, k0, k1, scores)
    requires |p| == k1 - k0
    requires forall col :: 0 <= col < |p| ==> p[col] == Shifted(c.e, vis, scores, newM)(col)
    requires IsPeak(newM, Max(m, LOWEST), 0, k1 - k0, vis, scores)
    requires newS * c.e.exp(newM) == s * c.e.exp(m) + Sum(0, k1 - k0, Exponentials(c.e, vis, scores))
    requires alpha * c.e.exp(newM) == c.e.exp(m)
    ensures TileStep(c, n, i, k0, k1, m, s, p, newM, newS, alpha)
  {
    hide Sum;
    ExponentialsAreWeights(c, n, i, k0, k1, vis, scores);
    ProbsAreWeights(c, n, i, k0, k1, vis, scores, p, newM);
    PeakMoves(newM, Max(m, LOWEST), k0, k1, vis, scores, Visibles(c, n, i), c.Scores(n, i));
  }

  /** A tile's softmax: every row of it. */
  method TileSoftmax(c: Call, q0: int, q1: int, k0: nat, k1: int, scores: Mat, m: seq<real>, s: seq<real>)
    returns (p: seq<seq<real>>, newM: seq<real>, newS: seq<real>, alpha: seq<real>)
    requires c.Valid() && q0 < q1 && k0 <= k1
    requires |m| == |s| == c.Rows(q1 - q0)
    requires forall r :: 0 <= r < |m| ==>
               HoldScores(c, HeadOf(r, q1 - q0), QueryOf(q0, r, q1 - q0), k0, k1, Row(scores, r))
    ensures |p| == |newM| == |newS| == |alpha| == |m|
    ensures forall r :: 0 <= r < |p| ==>
              TileStep(c, HeadOf(r, q1 - q0), QueryOf(q0, r, q1 - q0), k0, k1, m[r], s[r], p[r],
                       newM[r], newS[r], alpha[r])
  {
    hide TileStep;
    p, newM, newS, alpha := [], [], [], [];
    while |p| < |m|
      invariant |p| == |newM| == |newS| == |alpha| <= |m|
      invariant forall r :: 0 <= r < |p| ==>
                  TileStep(c, HeadOf(r, q1 - q0), QueryOf(q0, r, q1 - q0), k0, k1, m[r], s[r], p[r],
                           newM[r], newS[r], alpha[r])
    {
      var r := |p|;
      var row, mOut, sOut, a := TileRow(c, q0, q1, k0, k1, r, Row(scores, r), m[r], s[r]);
      p, newM, newS, alpha := p + [row], newM + [mOut], newS + [sOut], alpha + [a];
    }
  }

  function At(s: seq<real>, r: int): real { if 0 <= r < |s| then s[r] else 0.0 }

  function RowAt(p: seq<seq<real>>, r: int): seq<real> { if 0 <= r < |p| then p[r] else [] }

  /** The terms of a tile row's product with the values. */
  function TileValues(c: Call, n: int, k0: int, p: seq<real>, x: int): Vec
    requires c.group > 0
  {
    col => if 0 <= col < |p| then p[col] * c.v(n / c.group, k0 + col, x) else 0.0
  }

  /** One tile carries a row's state over its keys. */
  lemma RowAdvances(c: Call, n: int, i: int, k0: nat, k1: int, m: real, s: real, o: Vec,
                    p: seq<real>, newM: real, newS: real, alpha: real, newO: Vec)
    requires c.Valid() && k0 <= k1
    requires RowTracks(c, n, i, k0, m, s, o)
    requires TileStep(c, n, i, k0, k1, m, s, p, newM, newS, alpha)
    requires forall x :: 0 <= x < c.d ==>
               newO(x) == o(x) * alpha + Sum(0, k1 - k0, TileValues(c, n, k0, p, x))
    ensures RowTracks(c, n, i, k1, newM, newS, newO)
  {
    hide Sum;
    SumSplit(0, k0, k1, c.Weights(n, i));
    PeakGrows(m, newM, k0, k1, Visibles(c, n, i), c.Scores(n, i));
    forall x | 0 <= x < c.d
      ensures newO(x) * c.e.exp(newM) == Sum(0, k1, c.RawTerms(n, i, x))
    {
      EntryAdvances(c, n, i, k0, k1, o(x), p, c.e.exp(m), newM, alpha, newO(x), x);
    }
  }

  lemma EntryAdvances(c: Call, n: int, i: int, k0: nat, k1: int, o: real, p: seq<real>, f: real, newM: real,
                      alpha: real, newO: real, x: int)
    requires c.Valid() && k0 <= k1 && |p| == k1 - k0
    requires o * f == Sum(0, k0, c.RawTerms(n, i, x))
    requires forall j :: k0 <= j < k1 ==> p[j - k0] * c.e.exp(newM) == c.Weights(n, i)(j)
    requires alpha * c.e.exp(newM) == f
    requires newO == o * alpha + Sum(0, k1 - k0, TileValues(c, n, k0, p, x))
    ensures newO * c.e.exp(newM) == Sum(0, k1, c.RawTerms(n, i, x))
  {
    hide Sum;
    OutputAdvances(c, n, i, k0, k1, p, newM, x);
    SumSplit(0, k0, k1, c.RawTerms(n, i, x));
    Rescaled(o, alpha, Sum(0, k1 - k0, TileValues(c, n, k0, p, x)), f, c.e.exp(newM));
  }

  lemma Rescaled(o: real, alpha: real, add: real, f: real, newF: real)
    requires alpha * newF == f
    ensures (o * alpha + add) * newF == o * f + add * newF
  {
    assert o * alpha * newF == o * (alpha * newF);
  }

  /** The tile's product with the values, rescaled, is the plain sum over its keys. */
  lemma OutputAdvances(c: Call, n: int, i: int, k0: int, k1: int, p: seq<real>, m: real, x: int)
    requires c.Valid() && k0 <= k1 && |p| == k1 - k0
    requires forall j :: k0 <= j < k1 ==> p[j - k0] * c.e.exp(m) == c.Weights(n, i)(j)
    ensures Sum(0, k1 - k0, TileValues(c, n, k0, p, x)) * c.e.exp(m) == Sum(k0, k1, c.RawTerms(n, i, x))
  {
    hide Sum;
    var scaled: Vec := col => c.RawTerms(n, i, x)(col + k0);
    forall col | 0 <= col < k1 - k0
      ensures scaled(col) == c.e.exp(m) * TileValues(c, n, k0, p, x)(col)
    {
      assert p[k0 + col - k0] * c.e.exp(m) == c.Weights(n, i)(k0 + col);
      TileTerm(c, n, i, k0, p, x, col, c.e.exp(m));
    }
    SumScale(0, k1 - k0, c.e.exp(m), TileValues(c, n, k0, p, x), scaled);
    SumShift(0, k1 - k0, k0, c.RawTerms(n, i, x), scaled);
  }

  lemma TileTerm(c: Call, n: int, i: int, k0: int, p: seq<real>, x: int, col: int, f: real)
    requires c.group > 0 && c.heads > 0 && 0 <= col < |p|
    requires p[col] * f == c.Weights(n, i)(k0 + col)
    ensures c.RawTerms(n, i, x)(k0 + col) == f * TileValues(c, n, k0, p, x)(col)
  {
    ThreeFactors(f, p[col], c.v(n / c.group, k0 + col, x));
  }

  lemma PeakGrows(m: real, newM: real, k0: int, k1: int, vis: int -> bool, f: Vec)
    requires 0 <= k0 <= k1
    requires IsPeak(m, LOWEST, 0, k0, vis, f) && IsPeak(newM, Max(m, LOWEST), k0, k1, vis, f)
    ensures IsPeak(newM, LOWEST, 0, k1, vis, f)
  {
    if newM != LOWEST && newM == m {
      var j :| 0 <= j < k0 && vis(j) && f(j) == m;
      assert 0 <= j < k1;
    } else if newM != LOWEST {
      var j :| k0 <= j < k1 && vis(j) && f(j) == newM;
      assert 0 <= j < k1;
    }
  }

  /** Keys no query of the row sees leave its state as it is. */
  lemma RowSkips(c: Call, n: int, i: int, a: int, b: int, m: real, s: real, o: Vec)
    requires c.Valid() && 0 <= a <= b
    requires RowTracks(c, n, i, a, m, s, o)
    requires forall j :: a <= j < b ==> !c.Visible(n, i, j)
    ensures RowTracks(c, n, i, b, m, s, o)
  {
    hide Sum;
    SumSplit(0, a, b, c.Weights(n, i));
    SumZero(a, b, c.Weights(n, i));
    forall x | 0 <= x < c.d
      ensures Sum(0, b, c.RawTerms(n, i, x)) == Sum(0, a, c.RawTerms(n, i, x))
    {
      SumSplit(0, a, b, c.RawTerms(n, i, x));
      forall j | a <= j < b
        ensures c.RawTerms(n, i, x)(j) == 0.0
      {
        assert c.Weights(n, i)(j) == 0.0;
      }
      SumZero(a, b, c.RawTerms(n, i, x));
    }
    if m != LOWEST {
      var j :| 0 <= j < a && Visibles(c, n, i)(j) && c.Scores(n, i)(j) == m;
      assert 0 <= j < b;
    }
  }

  // ----- the keys a block of queries takes -----

  /** The first key of the tile that holds the block's first picked one. */
  function TakenFrom(c: Call, q0: int, q1: int, kb: nat): nat
    requires kb > 0
  {
    FloorMultiple(c.geom.KeysFor(q0, q1).0, kb);
    c.geom.KeysFor(q0, q1).0 / kb * kb
  }

  /** The call without the keys that no tile of the block takes. */
  function Taken(c: Call, q0: int, q1: int, kb: nat): Call
    requires kb > 0
  {
    c.(keep := Some((b, j) =>
      TakenFrom(c, q0, q1, kb) <= j < c.geom.KeysFor(q0, q1).1 && (c.keep.Some? ==> c.keep.value(b, j))))
  }

  lemma TakenIs(c: Call, q0: int, q1: int, kb: nat, n: int, i: int, j: int)
    requires c.Valid() && kb > 0
    ensures Taken(c, q0, q1, kb).Valid()
    ensures Taken(c, q0, q1, kb).Visible(n, i, j)
       <==> c.Visible(n, i, j) && TakenFrom(c, q0, q1, kb) <= j < c.geom.KeysFor(q0, q1).1
  {
    hide TakenFrom, Geometry.KeysFor;
  }

  /** Past the last key picked for a block, if any is, its queries see none. */
  lemma PastPick(c: Call, q0: int, q1: int, n: int, i: int, j: int)
    requires c.Valid() && 0 <= q0 <= i < q1 <= c.geom.tq && 0 <= j < c.geom.tk
    requires 0 < c.geom.KeysFor(q0, q1).1 <= j
    ensures !c.Visible(n, i, j)
  {
    if c.Visible(n, i, j) {
      KernelSeesLess(c.geom, i, j);
      PastPickUnseen(c.geom, q0, q1, i, j);
    }
  }

  lemma PastPickUnseen(g: Geometry, q0: int, q1: int, i: int, j: int)
    requires g.Valid() && 0 <= q0 <= i < q1 <= g.tq && 0 <= j < g.tk && 0 < g.KeysFor(q0, q1).1 <= j
    ensures !g.Sees(i, j)
  {
    hide Wrap64;
    if g.right.Some? {
      SideWraps(q1 - 1 + g.Offset() + g.right.value + 1);
    }
  }

  /** Where the block's sums fit, the tiles take every key its queries see. */
  lemma TakenWhereFit(c: Call, q0: int, q1: int, kb: nat, n: int, i: int, j: int)
    requires c.Valid() && kb > 0 && c.geom.KeysFit(q0, q1)
    requires 0 <= q0 <= i < q1 <= c.geom.tq && 0 <= j < c.geom.tk
    ensures Taken(c, q0, q1, kb).Visible(n, i, j) <==> c.Visible(n, i, j)
  {
    hide Geometry.KeysFor, Geometry.KeysFit;
    TakenIs(c, q0, q1, kb, n, i, j);
    FloorMultiple(c.geom.KeysFor(q0, q1).0, kb);
    var (lo, hi) := c.geom.KeysFor(q0, q1);
    if !(lo <= j < hi) {
      OutsideKeysFor(c, q0, q1, n, i, j);
    }
  }

  /** Keys outside the block's range are invisible to its queries. */
  lemma OutsideKeysFor(c: Call, q0: int, q1: int, n: int, i: int, j: int)
    requires c.heads > 0 && c.geom.Valid() && 0 <= q0 <= i < q1 <= c.geom.tq && 0 <= j < c.geom.tk
    requires c.geom.KeysFit(q0, q1)
    requires var (lo, hi) := c.geom.KeysFor(q0, q1); !(lo <= j < hi)
    ensures !c.Visible(n, i, j)
  {
    if c.Visible(n, i, j) {
      KernelSeesLess(c.geom, i, j);
      assert q0 <= i < q1 && c.geom.Sees(i, j);
      KeysForExact(c.geom, q0, q1, j);
    }
  }

  /** The log-sum-exp from a row's maximum and sum: m + ln s, -inf where nothing was summed. */
  function LseFrom(e: Exponential, m: real, s: real): Extended {
    match e.Log(s)
    case NegInf => NegInf
    case Fin(l) => Fin(m + l)
  }

  /** After the last key a row's quotient is its attention output and its state its log-sum-exp. */
  lemma RowFinishes(c: Call, n: int, i: int, m: real, s: real, o: Vec, x: int)
    requires c.Valid() && 0 <= x < c.d
    requires RowTracks(c, n, i, c.geom.tk, m, s, o)
    ensures o(x) / (if s > 0.0 then s else 1.0) == c.Out(n, i, x)
  {
    hide Sum;
    var z := c.Z(n, i);
    ZPositive(c, n, i);
    SignOfScaled(s, c.e.exp(m), z);
    if s > 0.0 {
      OutFromRaw(c, n, i, x);
      QuotientOfScaled(o(x), s, c.e.exp(m));
    } else {
      OutUnseen(c, n, i, x);
      forall j | 0 <= j < c.geom.tk
        ensures c.RawTerms(n, i, x)(j) == 0.0
      {
        assert c.Weights(n, i)(j) == 0.0;
      }
      SumZero(0, c.geom.tk, c.RawTerms(n, i, x));
      SignOfScaled(o(x), c.e.exp(m), 0.0);
    }
  }

  lemma LseFinishes(c: Call, n: int, i: int, m: real, s: real)
    requires c.Valid() && s * c.e.exp(m) == c.Z(n, i)
    ensures LseFrom(c.e, m, s) == c.Lse(n, i)
  {
    hide Sum;
    ZPositive(c, n, i);
    SignOfScaled(s, c.e.exp(m), c.Z(n, i));
    if s > 0.0 {
      LnOfShifted(c.e, m, s, c.Z(n, i));
    }
  }

  /** Every row of a block, each at its head and query, tracks the keys seen. */
  ghost predicate BlockTracks(c: Call, q0: int, qn: int, seen: int, m: seq<real>, s: seq<real>, o: Mat)
    requires c.Valid() && qn > 0
  {
    && |m| == |s| == c.Rows(qn)
    && forall r :: 0 <= r < |m| ==> RowTracks(c, HeadOf(r, qn), QueryOf(q0, r, qn), seen, m[r], s[r], Row(o, r))
  }

  lemma RowStarts(c: Call, n: int, i: int, o: Vec)
    requires c.Valid() && forall x :: o(x) == 0.0
    ensures RowTracks(c, n, i, 0, LOWEST, 0.0, o)
  {
  }

  /** Before the first tile of a block no key is taken. */
  lemma BlockStarts(c: Call, q0: nat, q1: nat, kb: nat, m: seq<real>, s: seq<real>, o: Mat)
    requires c.Valid() && q0 < q1 && kb > 0
    requires |m| == |s| == c.Rows(q1 - q0)
    requires forall r :: 0 <= r < |m| ==> m[r] == LOWEST && s[r] == 0.0
    requires forall r, x :: o(r, x) == 0.0
    ensures BlockTracks(Taken(c, q0, q1, kb), q0, q1 - q0, TakenFrom(c, q0, q1, kb), m, s, o)
  {
    hide RowTracks, TakenFrom;
    var t, first := Taken(c, q0, q1, kb), TakenFrom(c, q0, q1, kb);
    forall r | 0 <= r < |m|
      ensures RowTracks(t, HeadOf(r, q1 - q0), QueryOf(q0, r, q1 - q0), first, m[r], s[r], Row(o, r))
    {
      var n, i := HeadOf(r, q1 - q0), QueryOf(q0, r, q1 - q0);
      RowStarts(t, n, i, Row(o, r));
      forall j | 0 <= j < first
        ensures !t.Visible(n, i, j)
      {
        TakenIs(c, q0, q1, kb, n, i, j);
      }
      RowSkips(t, n, i, 0, first, m[r], s[r], Row(o, r));
    }
  }

  /** After the last tile of a block no key is taken. */
  lemma BlockEnds(c: Call, q0: nat, q1: nat, kb: nat, seen: nat, m: seq<real>, s: seq<real>, o: Mat)
    requires c.Valid() && q0 < q1 && kb > 0 && c.geom.KeysFor(q0, q1).1 <= seen <= c.geom.tk
    requires BlockTracks(Taken(c, q0, q1, kb), q0, q1 - q0, seen, m, s, o)
    ensures BlockTracks(Taken(c, q0, q1, kb), q0, q1 - q0, c.geom.tk, m, s, o)
  {
    hide RowTracks, TakenFrom, Geometry.KeysFor;
    var t := Taken(c, q0, q1, kb);
    forall r | 0 <= r < |m|
      ensures RowTracks(t, HeadOf(r, q1 - q0), QueryOf(q0, r, q1 - q0), c.geom.tk, m[r], s[r], Row(o, r))
    {
      var n, i := HeadOf(r, q1 - q0), QueryOf(q0, r, q1 - q0);
      forall j | seen <= j < c.geom.tk
        ensures !t.Visible(n, i, j)
      {
        TakenIs(c, q0, q1, kb, n, i, j);
      }
      RowSkips(t, n, i, seen, c.geom.tk, m[r], s[r], Row(o, r));
    }
  }

  lemma FloorMultiple(lo: nat, kb: nat)
    requires kb > 0
    ensures 0 <= (lo / kb) * kb <= lo
  {
  }

  /** One block of queries: the tiles of the keys picked for it, in order. */
  method ForwardBlock(c: Call, q0: nat, q1: nat, kb: nat) returns (m: seq<real>, s: seq<real>, o: Mat)
    requires c.Valid() && q0 < q1 <= c.geom.tq && kb > 0
    ensures BlockTracks(Taken(c, q0, q1, kb), q0, q1 - q0, c.geom.tk, m, s, o)
  {
    hide Sum, RowTracks, Geometry.KeysFor;
    var rows := c.Rows(q1 - q0);
    m, s, o := seq(rows, _ => LOWEST), seq(rows, _ => 0.0), (r, x) => 0.0;
    var (lo, hi) := c.geom.KeysFor(q0, q1);
    PickInCall(c.geom, q0, q1);
    var first := (lo / kb) * kb;
    FloorMultiple(lo, kb);
    assert first == TakenFrom(c, q0, q1, kb);
    ghost var t := Taken(c, q0, q1, kb);
    BlockStarts(c, q0, q1, kb, m, s, o);
    TakenIs(c, q0, q1, kb, 0, q0, 0);
    var k0 := first;
    hide BlockTracks, Call.Rows, Taken;
    while k0 < hi
      invariant first <= k0 && (k0 > first ==> hi > 0)
      invariant BlockTracks(t, q0, q1 - q0, MinInt(k0, c.geom.tk), m, s, o)
    {
      var k1 := MinInt(k0 + kb, c.geom.tk);
      TileTaken(c, q0, q1, kb, k0, k1);
      m, s, o := ForwardTile(c, t, q0, q1, k0, k1, m, s, o);
      k0 := k0 + kb;
    }
    BlockEnds(c, q0, q1, kb, MinInt(k0, c.geom.tk), m, s, o);
  }

  lemma PickInCall(g: Geometry, q0: int, q1: int)
    ensures g.KeysFor(q0, q1).0 <= g.tk && g.KeysFor(q0, q1).1 <= g.tk
  {
  }

  /** On a tile that is taken the queries see what they see in the call. */
  lemma TileTaken(c: Call, q0: nat, q1: nat, kb: nat, k0: nat, k1: nat)
    requires c.Valid() && q0 < q1 <= c.geom.tq && kb > 0 && 0 < c.geom.KeysFor(q0, q1).1
    requires TakenFrom(c, q0, q1, kb) <= k0 <= k1 <= c.geom.tk
    ensures SameOn(c, Taken(c, q0, q1, kb), q0, q1, k0, k1)
  {
    hide TakenFrom, Geometry.KeysFor, Taken;
    TakenIs(c, q0, q1, kb, 0, q0, 0);
    forall n, i, j | q0 <= i < q1 && k0 <= j < k1
      ensures Taken(c, q0, q1, kb).Visible(n, i, j) == c.Visible(n, i, j)
    {
      TakenIs(c, q0, q1, kb, n, i, j);
      if c.geom.KeysFor(q0, q1).1 <= j {
        PastPick(c, q0, q1, n, i, j);
      }
    }
    TakenShares(c, q0, q1, kb);
  }

  lemma TakenShares(c: Call, q0: int, q1: int, kb: nat)
    requires kb > 0
    ensures Taken(c, q0, q1, kb) == c.(keep := Taken(c, q0, q1, kb).keep)
  {
  }

  /** The two calls are one but for padding, and that is the same for the queries q0..q1 and the
      keys k0..k1. */
  ghost predicate SameOn(c: Call, t: Call, q0: int, q1: int, k0: int, k1: int) {
    && c.Valid() && t.Valid() && t == c.(keep := t.keep)
    && forall n, i, j :: q0 <= i < q1 && k0 <= j < k1 ==> t.Visible(n, i, j) == c.Visible(n, i, j)
  }

  /** The rescaled output of a tile and what the tile adds to it. */
  function TileOutput(c: Call, qn: int, k0: int, k1: int, o: Mat, alpha: seq<real>, p: seq<seq<real>>): Mat
    requires c.group > 0 && qn > 0
  {
    (r, x) => o(r, x) * At(alpha, r) + Sum(0, k1 - k0, TileValues(c, HeadOf(r, qn), k0, RowAt(p, r), x))
  }

  /** One tile carries every row of the block over its keys. */
  lemma BlockAdvances(c: Call, q0: int, qn: int, k0: nat, k1: int, m: seq<real>, s: seq<real>, o: Mat,
                      p: seq<seq<real>>, newM: seq<real>, newS: seq<real>, alpha: seq<real>, newO: Mat)
    requires c.Valid() && qn > 0 && k0 <= k1
    requires BlockTracks(c, q0, qn, k0, m, s, o)
    requires |p| == |newM| == |newS| == |alpha| == |m|
    requires forall r :: 0 <= r < |p| ==>
               TileStep(c, HeadOf(r, qn), QueryOf(q0, r, qn), k0, k1, m[r], s[r], p[r], newM[r], newS[r], alpha[r])
    requires forall r, x :: newO(r, x) == TileOutput(c, qn, k0, k1, o, alpha, p)(r, x)
    ensures BlockTracks(c, q0, qn, k1, newM, newS, newO)
  {
    hide RowTracks, TileStep;
    forall r | 0 <= r < |m|
      ensures RowTracks(c, HeadOf(r, qn), QueryOf(q0, r, qn), k1, newM[r], newS[r], Row(newO, r))
    {
      forall x | 0 <= x < c.d
        ensures Row(newO, r)(x)
             == Row(o, r)(x) * alpha[r] + Sum(0, k1 - k0, TileValues(c, HeadOf(r, qn), k0, p[r], x))
      {
        assert newO(r, x) == o(r, x) * At(alpha, r)
                             + Sum(0, k1 - k0, TileValues(c, HeadOf(r, qn), k0, RowAt(p, r), x));
      }
      RowAdvances(c, HeadOf(r, qn), QueryOf(q0, r, qn), k0, k1, m[r], s[r], Row(o, r),
                  p[r], newM[r], newS[r], alpha[r], Row(newO, r));
    }
  }

  /** One tile: its scores, its softmax, and the output rescaled and added to. */
  method ForwardTile(c: Call, ghost t: Call, q0: nat, q1: nat, k0: nat, k1: nat, m: seq<real>, s: seq<real>, o: Mat)
    returns (newM: seq<real>, newS: seq<real>, newO: Mat)
    requires c.Valid() && q0 < q1 && k0 <= k1 && SameOn(c, t, q0, q1, k0, k1)
    requires BlockTracks(t, q0, q1 - q0, k0, m, s, o)
    ensures BlockTracks(t, q0, q1 - q0, k1, newM, newS, newO)
  {
    hide RowTracks, TileStep, SameOn;
    SameShape(c, t, q0, q1, k0, k1);
    var scores := TileScores(c, q0, q1 - q0, k0);
    forall r | 0 <= r < |m|
      ensures HoldScores(c, HeadOf(r, q1 - q0), QueryOf(q0, r, q1 - q0), k0, k1, Row(scores, r))
    {
      TileScoresExact(c, q0, q1 - q0, k0, k1, r);
    }
    var p, alpha;
    p, newM, newS, alpha := TileSoftmax(c, q0, q1, k0, k1, scores, m, s);
    newO := TileOutput(c, q1 - q0, k0, k1, o, alpha, p);
    forall r | 0 <= r < |p|
      ensures TileStep(t, HeadOf(r, q1 - q0), QueryOf(q0, r, q1 - q0), k0, k1, m[r], s[r], p[r], newM[r], newS[r],
                       alpha[r])
    {
      SameStep(c, t, q0, q1, k0, k1, HeadOf(r, q1 - q0), QueryOf(q0, r, q1 - q0), m[r], s[r], p[r], newM[r], newS[r],
               alpha[r]);
    }
    SameOutput(c, t, q1 - q0, k0, k1, o, alpha, p);
    BlockAdvances(t, q0, q1 - q0, k0, k1, m, s, o, p, newM, newS, alpha, newO);
  }

  lemma SameShape(c: Call, t: Call, q0: int, q1: int, k0: int, k1: int)
    requires SameOn(c, t, q0, q1, k0, k1)
    ensures t.Valid() && t == c.(keep := t.keep) && forall qn: nat :: t.Rows(qn) == c.Rows(qn)
  {
  }

  lemma SameScores(c: Call, t: Call, n: int, i: int)
    requires c.Valid() && t.Valid() && t == c.(keep := t.keep)
    ensures forall j :: t.Scores(n, i)(j) == c.Scores(n, i)(j) && t.Score(n, i, j) == c.Score(n, i, j)
  {
    hide Sum;
    forall j
      ensures t.Score(n, i, j) == c.Score(n, i, j)
    {
      SumEqual(0, c.d, t.Products(n, i, j), c.Products(n, i, j));
    }
  }

  lemma SameOnTile(c: Call, t: Call, q0: int, q1: int, k0: int, k1: int, n: int, i: int)
    requires SameOn(c, t, q0, q1, k0, k1) && q0 <= i < q1
    ensures forall j :: k0 <= j < k1 ==>
      && t.Weights(n, i)(j) == c.Weights(n, i)(j) && Visibles(t, n, i)(j) == Visibles(c, n, i)(j)
      && t.Scores(n, i)(j) == c.Scores(n, i)(j)
    ensures Sum(k0, k1, t.Weights(n, i)) == Sum(k0, k1, c.Weights(n, i))
  {
    hide Sum, Call.Score, Call.Visible;
    SameScores(c, t, n, i);
    forall j | k0 <= j < k1
      ensures t.Weights(n, i)(j) == c.Weights(n, i)(j) && Visibles(t, n, i)(j) == Visibles(c, n, i)(j)
    {
      assert t.Visible(n, i, j) == c.Visible(n, i, j);
    }
    SumEqual(k0, k1, t.Weights(n, i), c.Weights(n, i));
  }

  /** A tile's step is the same in both calls. */
  lemma SameStep(c: Call, t: Call, q0: int, q1: int, k0: int, k1: int, n: int, i: int, m: real, s: real, p: seq<real>,
                 newM: real, newS: real, alpha: real)
    requires SameOn(c, t, q0, q1, k0, k1) && q0 <= i < q1
    requires TileStep(c, n, i, k0, k1, m, s, p, newM, newS, alpha)
    ensures TileStep(t, n, i, k0, k1, m, s, p, newM, newS, alpha)
  {
    hide Sum, Call.Weights, Call.Scores, Visibles;
    SameOnTile(c, t, q0, q1, k0, k1, n, i);
    forall j | k0 <= j < k1
      ensures p[j - k0] * t.e.exp(newM) == t.Weights(n, i)(j)
    {
    }
    SamePeak(newM, Max(m, LOWEST), k0, k1, Visibles(c, n, i), c.Scores(n, i), Visibles(t, n, i), t.Scores(n, i));
  }

  lemma SameOutput(c: Call, t: Call, qn: int, k0: int, k1: int, o: Mat, alpha: seq<real>, p: seq<seq<real>>)
    requires c.Valid() && t.Valid() && t == c.(keep := t.keep) && qn > 0
    ensures forall r, x :: TileOutput(c, qn, k0, k1, o, alpha, p)(r, x) == TileOutput(t, qn, k0, k1, o, alpha, p)(r, x)
  {
    hide Sum;
    forall r, x
      ensures TileOutput(c, qn, k0, k1, o, alpha, p)(r, x) == TileOutput(t, qn, k0, k1, o, alpha, p)(r, x)
    {
      SumEqual(0, k1 - k0, TileValues(c, HeadOf(r, qn), k0, RowAt(p, r), x),
               TileValues(t, HeadOf(r, qn), k0, RowAt(p, r), x));
    }
  }

  /** A tile's matrix product, the queries already multiplied by the scale. */
  function TileScores(c: Call, q0: int, qn: int, k0: int): Mat
    requires c.group > 0 && qn > 0
  {
    (r, col) => Sum(0, c.d, ScaledProducts(c, HeadOf(r, qn), QueryOf(q0, r, qn), k0 + col))
  }

  function ScaledProducts(c: Call, n: int, i: int, j: int): Vec
    requires c.group > 0
  {
    x => (c.q(n, i, x) * c.scale) * c.k(n / c.group, j, x)
  }

  lemma ScaledScore(c: Call, n: int, i: int, j: int)
    requires c.group > 0
    ensures Sum(0, c.d, ScaledProducts(c, n, i, j)) == c.Score(n, i, j)
  {
    forall x | 0 <= x < c.d
      ensures ScaledProducts(c, n, i, j)(x) == c.scale * c.Products(n, i, j)(x)
    {
    }
    SumScale(0, c.d, c.scale, c.Products(n, i, j), ScaledProducts(c, n, i, j));
  }

  lemma TileScoresExact(c: Call, q0: int, qn: int, k0: int, k1: int, r: int)
    requires c.Valid() && qn > 0
    ensures HoldScores(c, HeadOf(r, qn), QueryOf(q0, r, qn), k0, k1, Row(TileScores(c, q0, qn, k0), r))
  {
    forall j | k0 <= j < k1
      ensures Row(TileScores(c, q0, qn, k0), r)(j - k0) == c.Scores(HeadOf(r, qn), QueryOf(q0, r, qn))(j)
    {
      ScaledScore(c, HeadOf(r, qn), QueryOf(q0, r, qn), j);
      assert k0 + (j - k0) == j;
    }
  }

  /** What the forward pass leaves of row i of head n: the contract's output, and a maximum and a sum
      that are its softmax's, the maximum its greatest visible score (f32's lowest if that is
      greater or nothing is visible). */
  ghost predicate RowDone(c: Call, n: int, i: int, out: Tensor, m: Mat, s: Mat)
    requires c.Valid()
  {
    && (forall x :: 0 <= x < c.d ==> out(n, i, x) == c.Out(n, i, x))
    && s(n, i) * c.e.exp(m(n, i)) == c.Z(n, i)
    && IsPeak(m(n, i), LOWEST, 0, c.geom.tk, Visibles(c, n, i), c.Scores(n, i))
    && LseFrom(c.e, m(n, i), s(n, i)) == c.Lse(n, i)
  }

  /** The output of a block: divided by the sum, or by 1 where there is none. */
  function Quotients(o: Mat, s: seq<real>): Mat {
    (r, x) => o(r, x) / (if At(s, r) > 0.0 then At(s, r) else 1.0)
  }

  /** The row of a block that holds head n's query i. */
  function RowOf(n: int, i: int, q0: int, qn: int): int { n * qn + (i - q0) }

  lemma RowOfExact(c: Call, n: int, i: int, q0: int, qn: int)
    requires 0 <= n < c.Heads() && q0 <= i < q0 + qn
    ensures 0 <= RowOf(n, i, q0, qn) < c.Rows(qn)
    ensures HeadOf(RowOf(n, i, q0, qn), qn) == n && QueryOf(q0, RowOf(n, i, q0, qn), qn) == i
  {
    DivUnique(RowOf(n, i, q0, qn), qn, n, i - q0);
    assert (c.Heads() - 1) * qn >= n * qn;
  }

  /** `concatenate` along the queries: the rows q0..q0 + qn from a block. */
  function JoinRows(before: Tensor, q0: int, qn: int, block: Mat): Tensor {
    (n, i, x) => if q0 <= i < q0 + qn then block(RowOf(n, i, q0, qn), x) else before(n, i, x)
  }

  function JoinEntries(before: Mat, q0: int, qn: int, block: seq<real>): Mat {
    (n, i) => if q0 <= i < q0 + qn then At(block, RowOf(n, i, q0, qn)) else before(n, i)
  }

  /** A finished block's rows are done. */
  lemma BlockRowDone(c: Call, q0: int, qn: int, m: seq<real>, s: seq<real>, o: Mat, n: int, i: int,
                     out: Tensor, ms: Mat, ss: Mat)
    requires c.Valid() && 0 <= n < c.Heads() && q0 <= i < q0 + qn
    requires BlockTracks(c, q0, qn, c.geom.tk, m, s, o)
    requires forall x :: out(n, i, x) == Quotients(o, s)(RowOf(n, i, q0, qn), x)
    requires ms(n, i) == At(m, RowOf(n, i, q0, qn)) && ss(n, i) == At(s, RowOf(n, i, q0, qn))
    ensures RowDone(c, n, i, out, ms, ss)
  {
    hide Sum;
    RowOfExact(c, n, i, q0, qn);
    var r := RowOf(n, i, q0, qn);
    assert RowTracks(c, HeadOf(r, qn), QueryOf(q0, r, qn), c.geom.tk, m[r], s[r], Row(o, r));
    forall x | 0 <= x < c.d
      ensures out(n, i, x) == c.Out(n, i, x)
    {
      RowFinishes(c, n, i, m[r], s[r], Row(o, r), x);
      assert Quotients(o, s)(r, x) == Row(o, r)(x) / (if s[r] > 0.0 then s[r] else 1.0);
    }
    LseFinishes(c, n, i, m[r], s[r]);
  }

  /** The block of qb queries that query i is in. */
  function BlockStart(i: int, qb: nat): int
    requires qb > 0
  {
    i / qb * qb
  }

  function TakenAt(c: Call, i: int, qb: nat, kb: nat): Call
    requires qb > 0 && kb > 0
  {
    Taken(c, BlockStart(i, qb), MinInt(BlockStart(i, qb) + qb, c.geom.tq), kb)
  }

  /** Row i holds the attention over the keys its block takes. */
  ghost predicate RowTaken(c: Call, qb: nat, kb: nat, n: int, i: int, out: Tensor, m: Mat, s: Mat)
    requires c.Valid() && qb > 0 && kb > 0
  {
    TakenAt(c, i, qb, kb).Valid() && RowDone(TakenAt(c, i, qb, kb), n, i, out, m, s)
  }

  lemma InBlock(i: int, q0: int, qb: nat)
    requires qb > 0 && q0 % qb == 0 && q0 <= i < q0 + qb
    ensures BlockStart(i, qb) == q0
  {
    DivUnique(i, qb, q0 / qb, i - q0);
  }

  /** Joining a finished block to the rows before it. */
  lemma JoinDone(c: Call, q0: nat, qn: nat, qb: nat, kb: nat, m: seq<real>, s: seq<real>, o: Mat, out: Tensor, ms: Mat,
                 ss: Mat)
    requires c.Valid() && qb > 0 && kb > 0 && 0 < qn == MinInt(q0 + qb, c.geom.tq) - q0 && q0 % qb == 0
    requires BlockTracks(Taken(c, q0, q0 + qn, kb), q0, qn, c.geom.tk, m, s, o)
    requires forall n, i :: 0 <= n < c.Heads() && 0 <= i < q0 ==> RowTaken(c, qb, kb, n, i, out, ms, ss)
    ensures forall n, i :: 0 <= n < c.Heads() && 0 <= i < q0 + qn ==>
              RowTaken(c, qb, kb, n, i, JoinRows(out, q0, qn, Quotients(o, s)), JoinEntries(ms, q0, qn, m),
                       JoinEntries(ss, q0, qn, s))
  {
    var out', ms', ss' :=
      JoinRows(out, q0, qn, Quotients(o, s)), JoinEntries(ms, q0, qn, m), JoinEntries(ss, q0, qn, s);
    forall n, i | 0 <= n < c.Heads() && 0 <= i < q0 + qn
      ensures RowTaken(c, qb, kb, n, i, out', ms', ss')
    {
      hide RowTaken, BlockTracks, TakenAt, Taken;
      if q0 <= i {
        BlockRowTaken(c, q0, qn, qb, kb, m, s, o, n, i, out', ms', ss');
      } else {
        RowKept(c, qb, kb, n, i, out, ms, ss, out', ms', ss');
      }
    }
  }

  lemma BlockRowTaken(c: Call, q0: nat, qn: nat, qb: nat, kb: nat, m: seq<real>, s: seq<real>, o: Mat, n: int, i: int,
                      out: Tensor, ms: Mat, ss: Mat)
    requires c.Valid() && qb > 0 && kb > 0 && 0 < qn == MinInt(q0 + qb, c.geom.tq) - q0 && q0 % qb == 0
    requires BlockTracks(Taken(c, q0, q0 + qn, kb), q0, qn, c.geom.tk, m, s, o)
    requires 0 <= n < c.Heads() && q0 <= i < q0 + qn
    requires forall x :: out(n, i, x) == Quotients(o, s)(RowOf(n, i, q0, qn), x)
    requires ms(n, i) == At(m, RowOf(n, i, q0, qn)) && ss(n, i) == At(s, RowOf(n, i, q0, qn))
    ensures RowTaken(c, qb, kb, n, i, out, ms, ss)
  {
    hide RowDone, BlockTracks, Sum, TakenFrom, Geometry.KeysFor, BlockStart, Quotients;
    InBlock(i, q0, qb);
    TakenIs(c, q0, q0 + qn, kb, n, i, 0);
    BlockRowDone(Taken(c, q0, q0 + qn, kb), q0, qn, m, s, o, n, i, out, ms, ss);
  }

  lemma RowKept(c: Call, qb: nat, kb: nat, n: int, i: int, out: Tensor, m: Mat, s: Mat, out': Tensor, m': Mat, s': Mat)
    requires c.Valid() && qb > 0 && kb > 0 && RowTaken(c, qb, kb, n, i, out, m, s)
    requires m'(n, i) == m(n, i) && s'(n, i) == s(n, i) && forall x :: out'(n, i, x) == out(n, i, x)
    ensures RowTaken(c, qb, kb, n, i, out', m', s')
  {
    hide Sum, Call.Out, Call.Z, Call.Lse, TakenAt;
  }

  /** The forward pass over every block of qb queries in tiles of kb keys: whatever the block sizes, the
      attention and the log-sum-exp over the keys each block takes; the contract's where those are all the
      keys its queries see. */
  method BlockedForward(c: Call, qb: nat, kb: nat) returns (out: Tensor, ms: Mat, ss: Mat)
    requires c.Valid() && qb > 0 && kb > 0
    ensures forall n, i :: 0 <= n < c.Heads() && 0 <= i < c.geom.tq ==> RowTaken(c, qb, kb, n, i, out, ms, ss)
    ensures c.geom.KeysAllFit() ==>
      forall n, i :: 0 <= n < c.Heads() && 0 <= i < c.geom.tq ==> RowDone(c, n, i, out, ms, ss)
  {
    hide RowDone, RowTaken, BlockTracks, Sum, Taken, Geometry.KeysAllFit, JoinRows, JoinEntries, Quotients;
    out, ms, ss := (n, i, x) => 0.0, (n, i) => 0.0, (n, i) => 0.0;
    var q0 := 0;
    while q0 < c.geom.tq
      invariant 0 <= q0 && q0 % qb == 0
      invariant forall n, i :: 0 <= n < c.Heads() && 0 <= i < MinInt(q0, c.geom.tq) ==>
        RowTaken(c, qb, kb, n, i, out, ms, ss)
    {
      var q1 := MinInt(q0 + qb, c.geom.tq);
      var m, s, o := ForwardBlock(c, q0, q1, kb);
      JoinDone(c, q0, q1 - q0, qb, kb, m, s, o, out, ms, ss);
      out, ms, ss := JoinRows(out, q0, q1 - q0, Quotients(o, s)), JoinEntries(ms, q0, q1 - q0, m),
                     JoinEntries(ss, q0, q1 - q0, s);
      NextBlock(q0, qb);
      q0 := q0 + qb;
    }
    AllWhole(c, qb, kb, out, ms, ss);
  }

  lemma NextBlock(q0: int, qb: nat)
    requires qb > 0 && q0 % qb == 0
    ensures (q0 + qb) % qb == 0
  {
    DivUnique(q0 + qb, qb, q0 / qb + 1, 0);
  }

  lemma AllWhole(c: Call, qb: nat, kb: nat, out: Tensor, ms: Mat, ss: Mat)
    requires c.Valid() && qb > 0 && kb > 0
    requires forall n, i :: 0 <= n < c.Heads() && 0 <= i < c.geom.tq ==> RowTaken(c, qb, kb, n, i, out, ms, ss)
    ensures c.geom.KeysAllFit() ==>
      forall n, i :: 0 <= n < c.Heads() && 0 <= i < c.geom.tq ==> RowDone(c, n, i, out, ms, ss)
  {
    hide RowDone, RowTaken, Geometry.KeysAllFit;
    if c.geom.KeysAllFit() {
      forall n, i | 0 <= n < c.Heads() && 0 <= i < c.geom.tq
        ensures RowDone(c, n, i, out, ms, ss)
      {
        BlockHolds(i, qb);
        BlockFits(c.geom, BlockStart(i, qb), MinInt(BlockStart(i, qb) + qb, c.geom.tq));
        TakenIsWhole(c, qb, kb, n, i, out, ms, ss);
      }
    }
  }

  lemma BlockFits(g: Geometry, q0: int, q1: int)
    requires g.KeysAllFit() && 0 <= q0 && q1 <= g.tq
    ensures g.KeysFit(q0, q1)
  {
  }

  /** Where a block's sums fit 64 bits and the band fits the kernels, its rows are the contract's attention
      over the keys the contract allows. */
  lemma ForwardIsContract(c: Call, options: Options, qb: nat, kb: nat, n: int, i: int, x: int, out: Tensor, ms: Mat,
                          ss: Mat)
    requires c.Valid() && qb > 0 && kb > 0 && Reach(options) == (c.geom.left, c.geom.right)
    requires 0 <= i < c.geom.tq && 0 <= x < c.d && RowTaken(c, qb, kb, n, i, out, ms, ss)
    requires c.geom.FitsKernel() && c.geom.KeysFit(BlockStart(i, qb), MinInt(BlockStart(i, qb) + qb, c.geom.tq))
    ensures out(n, i, x)
         == Attend(c.e, c.geom.tk, Allowed(options, c.geom.tq, c.geom.tk, i, KeptKeys(c, n)), c.Scores(n, i),
                   j => c.v(n / c.group, j, x))
  {
    hide Sum, RowTaken, BlockStart, Reach, Call.Out, Geometry.FitsKernel, Attend;
    TakenIsWhole(c, qb, kb, n, i, out, ms, ss);
    OutIsContract(c, options, n, i, x);
  }

  /** A block for which no key is picked leaves its rows zeros with a log-sum-exp of -inf, whatever its
      queries see. */
  lemma NothingTaken(c: Call, qb: nat, kb: nat, n: int, i: int, out: Tensor, ms: Mat, ss: Mat)
    requires c.Valid() && qb > 0 && kb > 0 && RowTaken(c, qb, kb, n, i, out, ms, ss)
    requires c.geom.KeysFor(BlockStart(i, qb), MinInt(BlockStart(i, qb) + qb, c.geom.tq)).1 == 0
    ensures forall x :: 0 <= x < c.d ==> out(n, i, x) == 0.0
    ensures LseFrom(c.e, ms(n, i), ss(n, i)) == NegInf
  {
    hide Sum, Taken, BlockStart, Geometry.KeysFor, Call.Out;
    var q0 := BlockStart(i, qb);
    var q1, t := MinInt(q0 + qb, c.geom.tq), TakenAt(c, i, qb, kb);
    TakenShares(c, q0, q1, kb);
    forall j | 0 <= j < c.geom.tk
      ensures !t.Visible(n, i, j)
    {
      TakenIs(c, q0, q1, kb, n, i, j);
    }
    forall x | 0 <= x < c.d
      ensures out(n, i, x) == 0.0
    {
      OutUnseen(t, n, i, x);
    }
  }

  /** Where the sums of a row's block fit, what it holds is the contract's. */
  lemma TakenIsWhole(c: Call, qb: nat, kb: nat, n: int, i: int, out: Tensor, ms: Mat, ss: Mat)
    requires c.Valid() && qb > 0 && kb > 0 && 0 <= i < c.geom.tq && RowTaken(c, qb, kb, n, i, out, ms, ss)
    requires c.geom.KeysFit(BlockStart(i, qb), MinInt(BlockStart(i, qb) + qb, c.geom.tq))
    ensures RowDone(c, n, i, out, ms, ss)
  {
    hide RowDone, Taken;
    var q0 := BlockStart(i, qb);
    var q1, t := MinInt(q0 + qb, c.geom.tq), TakenAt(c, i, qb, kb);
    BlockHolds(i, qb);
    forall j | 0 <= j < c.geom.tk
      ensures t.Visible(n, i, j) == c.Visible(n, i, j)
    {
      TakenWhereFit(c, q0, q1, kb, n, i, j);
    }
    TakenShares(c, q0, q1, kb);
    SameRow(t, c, n, i, out, ms, ss);
  }

  lemma BlockHolds(i: int, qb: nat)
    requires qb > 0 && i >= 0
    ensures 0 <= BlockStart(i, qb) <= i < BlockStart(i, qb) + qb
  {
    assert i == i / qb * qb + i % qb;
    FloorMultiple(i, qb);
  }

  /** A row that sees the same keys in two calls is done in both or in neither. */
  lemma SameRow(c: Call, t: Call, n: int, i: int, out: Tensor, m: Mat, s: Mat)
    requires c.Valid() && t.Valid() && t == c.(keep := t.keep) && RowDone(c, n, i, out, m, s)
    requires forall j :: 0 <= j < c.geom.tk ==> t.Visible(n, i, j) == c.Visible(n, i, j)
    ensures RowDone(t, n, i, out, m, s)
  {
    hide Sum, Call.Score, Call.Visible;
    SameScores(c, t, n, i);
    var tk := c.geom.tk;
    SumEqual(0, tk, t.Weights(n, i), c.Weights(n, i));
    assert t.Z(n, i) == c.Z(n, i);
    forall x | 0 <= x < c.d
      ensures t.Out(n, i, x) == c.Out(n, i, x)
    {
      forall j | 0 <= j < tk
        ensures t.ValueTerms(n, i, x)(j) == c.ValueTerms(n, i, x)(j)
      {
        assert t.P(n, i, j) == c.P(n, i, j);
      }
      SumEqual(0, tk, t.ValueTerms(n, i, x), c.ValueTerms(n, i, x));
    }
    assert t.SeesKey(n, i) == c.SeesKey(n, i);
    forall j | 0 <= j < tk
      ensures Visibles(t, n, i)(j) == Visibles(c, n, i)(j)
    {
    }
  }
}
