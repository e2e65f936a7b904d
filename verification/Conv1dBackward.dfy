/** The convolution's backward kernel: each run recomputes the pre-activation, looks k - 1 steps past
    its end for the inputs' gradient, and keeps partial sums for the weight and the bias, which are then
    added. */
module Conv1dBackward {
  import opened Sums
  import opened Analysis
  import opened Integers
  import opened Conv1d

  /** The activation's derivative. */
  function Slope(e: Exponential, silu: bool, y: real): real
    requires e.Laws()
  {
    if silu then
      var s := 1.0 / (1.0 + e.exp(-y));
      s * (1.0 + y * (1.0 - s))
    else 1.0
  }

  /** The gradient before the activation at step u, 0 outside the sequence. */
  function GPre(c: Conv, g: Vec): Vec
    requires c.e.Laws()
  {
    u => if 0 <= u < c.t then g(u) * Slope(c.e, c.silu, c.Pre(u)) else 0.0
  }

  function HistoryTerms(c: Conv, g: Vec, u: int): Vec
    requires c.e.Laws()
  {
    j => c.weight(j) * GPre(c, g)(u + c.k - 1 - j)
  }

  /** The gradient of history step u: the inputs' for u >= 0, the state's before. */
  function GradHistory(c: Conv, g: Vec): Vec
    requires c.e.Laws()
  {
    u => Sum(0, c.k, HistoryTerms(c, g, u))
  }

  function WeightTerms(c: Conv, g: Vec, j: int): Vec
    requires c.e.Laws()
  {
    u => GPre(c, g)(u) * c.H(u - (c.k - 1) + j)
  }

  function GradWeight(c: Conv, g: Vec): Vec
    requires c.e.Laws()
  {
    j => Sum(0, c.t, WeightTerms(c, g, j))
  }

  function GradBias(c: Conv, g: Vec): real
    requires c.e.Laws()
  {
    Sum(0, c.t, GPre(c, g))
  }

  // ----- the kernel -----

  /** The gradients before the activation that a run holds at step t: those of steps t - k .. t - 1, 0
      before its first. */
  ghost predicate Recent(c: Conv, g: Vec, t0: int, t: int, gp: seq<real>)
    requires c.Valid()
  {
    |gp| == c.k && forall j :: 0 <= j < c.k ==>
      gp[j] == if t - c.k + j >= t0 then GPre(c, g)(t - c.k + j) else 0.0
  }

  /** A step's gradient before the activation, from the window. */
  method StepGradient(c: Conv, g: Vec, t: nat, win: array<real>) returns (gPre: real)
    requires c.Valid() && t < c.t && win.Length == c.k
    requires forall j :: 0 <= j < c.k ==> win[j] == c.H(t - (c.k - 1) + j)
    ensures gPre == GPre(c, g)(t)
  {
    hide Sum;
    var y := TapSum(c, t, win);
    y := y + c.bias;
    if c.silu {
      var s := 1.0 / (1.0 + c.e.exp(-y));
      gPre := g(t) * s * (1.0 + y * (1.0 - s));
    } else {
      gPre := g(t);
    }
  }

  /** The partial sums of a run over its steps before t. */
  ghost predicate SumsHold(c: Conv, g: Vec, t0: int, t: int, dw: seq<real>, db: real)
    requires c.Valid()
  {
    && |dw| == c.k && (forall j :: 0 <= j < c.k ==> dw[j] == Sum(t0, t, WeightTerms(c, g, j)))
    && db == Sum(t0, t, GPre(c, g))
  }

  lemma WeightTermAt(c: Conv, g: Vec, t0: int, t: int, j: int)
    requires c.Valid() && t0 <= t
    ensures Sum(t0, t + 1, WeightTerms(c, g, j))
         == Sum(t0, t, WeightTerms(c, g, j)) + GPre(c, g)(t) * c.H(t - (c.k - 1) + j)
  {
  }

  /** dw[j] += g win[j], and db. */
  method AddTaps(c: Conv, g: Vec, t0: int, t: nat, gPre: real, win: array<real>, dw: array<real>, db: real)
    returns (newDb: real)
    requires c.Valid() && t0 <= t && win.Length == c.k && dw.Length == c.k && win != dw
    requires gPre == GPre(c, g)(t) && forall j :: 0 <= j < c.k ==> win[j] == c.H(t - (c.k - 1) + j)
    requires SumsHold(c, g, t0, t, dw[..], db)
    modifies dw
    ensures SumsHold(c, g, t0, t + 1, dw[..], newDb)
  {
    hide Sum, GPre, WeightTerms;
    ghost var before := dw[..];
    for j := 0 to c.k
      invariant forall i :: 0 <= i < j ==> dw[i] == Sum(t0, t + 1, WeightTerms(c, g, i))
      invariant forall i :: j <= i < c.k ==> dw[i] == before[i]
    {
      WeightTermAt(c, g, t0, t, j);
      dw[j] := dw[j] + gPre * win[j];
    }
    newDb := db + gPre;
    OneMore(c, g, t0, t);
  }

  /** The newest gradient takes the last place, the others move down. */
  method Push(c: Conv, g: Vec, t0: int, t: nat, gPre: real, gp: array<real>)
    requires c.Valid() && t0 <= t && gPre == GPre(c, g)(t) && Recent(c, g, t0, t, gp[..])
    modifies gp
    ensures Recent(c, g, t0, t + 1, gp[..])
  {
    hide Recent;
    ghost var was := gp[..];
    RecentLength(c, g, t0, t, was);
    ShiftDown(gp);
    gp[c.k - 1] := gPre;
    assert gp[..] == was[1..] + [gPre];
    RecentPushed(c, g, t0, t, was);
  }

  lemma RecentLength(c: Conv, g: Vec, t0: int, t: int, gp: seq<real>)
    requires c.Valid() && Recent(c, g, t0, t, gp)
    ensures |gp| == c.k
  {
  }

  lemma RecentPushed(c: Conv, g: Vec, t0: int, t: int, was: seq<real>)
    requires c.Valid() && t0 <= t && |was| == c.k && Recent(c, g, t0, t, was)
    ensures Recent(c, g, t0, t + 1, was[1..] + [GPre(c, g)(t)])
  {
    hide GPre;
    var gp := was[1..] + [GPre(c, g)(t)];
    forall j | 0 <= j < c.k
      ensures gp[j] == if t + 1 - c.k + j >= t0 then GPre(c, g)(t + 1 - c.k + j) else 0.0
    {
      if j < c.k - 1 {
        assert gp[j] == was[j + 1];
        assert t - c.k + (j + 1) == t + 1 - c.k + j;
      }
    }
  }

  /** The input gradient k - 1 steps back, from the gradients the run holds. */
  method InputGradient(c: Conv, g: Vec, t0: int, t: nat, gp: array<real>) returns (acc: real)
    requires c.Valid() && Recent(c, g, t0, t + 1, gp[..]) && t - (c.k - 1) >= t0
    ensures acc == GradHistory(c, g)(t - (c.k - 1))
  {
    hide GPre;
    acc := 0.0;
    var tau := t - (c.k - 1);
    for j := 0 to c.k
      invariant acc == Sum(0, j, HistoryTerms(c, g, tau))
    {
      assert gp[..][c.k - 1 - j] == GPre(c, g)(t + 1 - c.k + (c.k - 1 - j));
      acc := acc + c.weight(j) * gp[c.k - 1 - j];
    }
  }

  /** The run's first k - 1 gradients before the activation, those of steps before t. */
  ghost predicate FirstHold(c: Conv, g: Vec, t: int, first: seq<real>)
    requires c.Valid()
  {
    |first| == c.k - 1 && forall i :: 0 <= i < c.k - 1 && i < t ==> first[i] == GPre(c, g)(i)
  }

  /** The run's input gradients before step u are written, the rest of dx is as it was. */
  ghost predicate InputsHold(c: Conv, g: Vec, t0: int, u: int, before: seq<real>, dx: seq<real>)
    requires c.Valid()
  {
    |dx| == |before| == c.t
    && forall v :: 0 <= v < c.t ==> dx[v] == if t0 <= v < u then GradHistory(c, g)(v) else before[v]
  }

  /** The window and the gradient before the activation at step t; the run's sums, on its own steps. */
  method Recompute(c: Conv, g: Vec, t0: nat, t1: nat, t: nat, win: array<real>, dw: array<real>, db: real)
    returns (gPre: real, newDb: real)
    requires c.Valid() && t0 <= t && t0 <= t1 <= c.t && win.Length == dw.Length == c.k && win != dw
    requires t <= c.t ==> WindowAt(c, t, win[..])
    requires SumsHold(c, g, t0, MinInt(t, t1), dw[..], db)
    modifies win, dw
    ensures gPre == GPre(c, g)(t)
    ensures t + 1 <= c.t ==> WindowAt(c, t + 1, win[..])
    ensures SumsHold(c, g, t0, MinInt(t + 1, t1), dw[..], newDb)
  {
    hide SumsHold, GPre, WindowAt, Conv.H;
    gPre, newDb := 0.0, db;
    if t < c.t {
      WindowKept(c, t, win[..], c.x(t));
      win[c.k - 1] := c.x(t);
      assert win[..] == old(win[..])[c.k - 1 := c.x(t)];
      WindowFull(c, t, win[..]);
      ghost var was := win[..];
      gPre := StepGradient(c, g, t, win);
      if t < t1 {
        newDb := AddTaps(c, g, t0, t, gPre, win, dw, db);
      }
      ShiftDown(win);
      WindowSlides(c, t, was, win[..]);
    } else {
      NoGradient(c, g, t);
    }
  }

  /** The input gradient that step t completes. */
  method Emit(c: Conv, g: Vec, t0: nat, t: nat, gp: array<real>, dx: array<real>, ghost before: seq<real>)
    requires c.Valid() && Recent(c, g, t0, t + 1, gp[..]) && gp != dx && t - (c.k - 1) < c.t && dx.Length == c.t
    requires InputsHold(c, g, t0, t - (c.k - 1), before, dx[..])
    modifies dx
    ensures InputsHold(c, g, t0, t + 1 - (c.k - 1), before, dx[..])
  {
    hide Recent, GradHistory;
    var tau := t - (c.k - 1);
    if tau >= t0 {
      var acc := InputGradient(c, g, t0, t, gp);
      dx[tau] := acc;
    }
  }

  method KeepFirst(c: Conv, g: Vec, t: nat, gPre: real, first: array<real>)
    requires c.Valid() && first.Length == c.k - 1 && gPre == GPre(c, g)(t) && FirstHold(c, g, t, first[..])
    modifies first
    ensures FirstHold(c, g, t + 1, first[..])
  {
    hide GPre;
    if t < c.k - 1 {
      first[t] := gPre;
    }
  }

  /** One thread of the backward kernel over its run, the state's gradient apart: its own steps' input
      gradients, its partial sums, and, from the first run, the gradients before the activation of the
      first k - 1 steps. */
  method BackwardRun(c: Conv, g: Vec, t0: nat, run: nat, dx: array<real>)
    returns (dw: seq<real>, db: real, first: seq<real>)
    requires c.Valid() && run > 0 && t0 < c.t && dx.Length == c.t
    modifies dx
    ensures InputsHold(c, g, t0, MinInt(t0 + run, c.t), old(dx[..]), dx[..])
    ensures SumsHold(c, g, t0, MinInt(t0 + run, c.t), dw, db)
    ensures t0 == 0 ==> FirstHold(c, g, c.k - 1, first)
  {
    hide WindowAt, SumsHold, FirstHold, InputsHold, Recent, GPre, Sum;
    var t1 := MinInt(t0 + run, c.t);
    var win := LoadWindow(c, t0);
    var gp, dws, firsts := new real[c.k](_ => 0.0), new real[c.k](_ => 0.0), new real[c.k - 1](_ => 0.0);
    db := 0.0;
    ghost var before := dx[..];
    RunStarts(c, g, t0, gp[..], dws[..], firsts[..], before);
    for t := t0 to t1 + c.k - 1
      invariant t <= c.t ==> WindowAt(c, t, win[..])
      invariant Recent(c, g, t0, t, gp[..])
      invariant SumsHold(c, g, t0, MinInt(t, t1), dws[..], db)
      invariant t0 == 0 ==> FirstHold(c, g, t, firsts[..])
      invariant InputsHold(c, g, t0, t - (c.k - 1), before, dx[..])
    {
      var gPre;
      gPre, db := Recompute(c, g, t0, t1, t, win, dws, db);
      Push(c, g, t0, t, gPre, gp);
      Emit(c, g, t0, t, gp, dx, before);
      if t0 == 0 {
        KeepFirst(c, g, t, gPre, firsts);
      }
    }
    dw, first := dws[..], firsts[..];
    MoreFirst(c, g, t1 + c.k - 1, first);
  }

  lemma MoreFirst(c: Conv, g: Vec, t: int, first: seq<real>)
    requires c.Valid() && t >= c.k - 1
    ensures FirstHold(c, g, t, first) ==> FirstHold(c, g, c.k - 1, first)
  {
  }

  /** What the registers hold before a run's first step. */
  lemma RunStarts(c: Conv, g: Vec, t0: int, gp: seq<real>, dw: seq<real>, first: seq<real>, before: seq<real>)
    requires c.Valid() && 0 <= t0 && |gp| == |dw| == c.k && |first| == c.k - 1 && |before| == c.t
    requires forall j :: 0 <= j < c.k ==> gp[j] == 0.0 && dw[j] == 0.0
    ensures Recent(c, g, t0, t0, gp) && SumsHold(c, g, t0, t0, dw, 0.0) && (t0 == 0 ==> FirstHold(c, g, t0, first))
    ensures InputsHold(c, g, t0, t0 - (c.k - 1), before, before)
  {
  }

  lemma OneMore(c: Conv, g: Vec, t0: int, t: int)
    requires c.Valid() && t0 <= t
    ensures Sum(t0, t + 1, GPre(c, g)) == Sum(t0, t, GPre(c, g)) + GPre(c, g)(t)
  {
  }

  lemma NoGradient(c: Conv, g: Vec, u: int)
    requires c.Valid() && !(0 <= u < c.t)
    ensures GPre(c, g)(u) == 0.0
  {
  }

  /** The state's gradient, from the first k - 1 steps' gradients before the activation: zeros for the
      steps older than k - 1. */
  method StateGradient(c: Conv, g: Vec, first: seq<real>) returns (dstate: array<real>)
    requires c.Valid() && FirstHold(c, g, c.k - 1, first)
    ensures fresh(dstate) && dstate.Length == c.w
    ensures forall s :: 0 <= s < c.w ==> dstate[s] == GradHistory(c, g)(s - c.w)
  {
    hide GradHistory, Sum, GPre;
    dstate := new real[c.w];
    for s := 0 to c.w - (c.k - 1)
      invariant forall i :: 0 <= i < s ==> dstate[i] == GradHistory(c, g)(i - c.w)
    {
      OldStep(c, g, s - c.w);
      dstate[s] := 0.0;
    }
    for i := 0 to c.k - 1
      invariant forall s :: 0 <= s < c.w - (c.k - 1) + i ==> dstate[s] == GradHistory(c, g)(s - c.w)
    {
      var at := c.w - (c.k - 1) + i;
      var acc := StateStep(c, g, i, first);
      dstate[at] := acc;
    }
  }

  method StateStep(c: Conv, g: Vec, i: nat, first: seq<real>) returns (acc: real)
    requires c.Valid() && i < c.k - 1 && |first| == c.k - 1
    requires forall n :: 0 <= n < c.k - 1 ==> first[n] == GPre(c, g)(n)
    ensures acc == GradHistory(c, g)(i - (c.k - 1))
  {
    hide GPre;
    acc := 0.0;
    var u := i - (c.k - 1);
    for j := 0 to i + 1
      invariant acc == Sum(0, j, HistoryTerms(c, g, u))
    {
      assert HistoryTerms(c, g, u)(j) == c.weight(j) * GPre(c, g)(i - j);
      acc := acc + c.weight(j) * first[i - j];
    }
    forall j | i + 1 <= j < c.k
      ensures HistoryTerms(c, g, u)(j) == 0.0
    {
      NoGradient(c, g, i - j);
    }
    SumZero(i + 1, c.k, HistoryTerms(c, g, u));
    SumSplit(0, i + 1, c.k, HistoryTerms(c, g, u));
  }

  /** A step older than the kernel reaches gets nothing. */
  lemma OldStep(c: Conv, g: Vec, u: int)
    requires c.Valid() && u < -(c.k - 1)
    ensures GradHistory(c, g)(u) == 0.0
  {
    hide Sum;
    forall j | 0 <= j < c.k
      ensures HistoryTerms(c, g, u)(j) == 0.0
    {
      NoGradient(c, g, u + c.k - 1 - j);
    }
    SumZero(0, c.k, HistoryTerms(c, g, u));
  }

  // ----- every run of every sequence -----

  /** Column j of the rows' partial sums, added up as `sum_axis` adds them. */
  function RowTotal(rows: seq<seq<real>>, j: int): real {
    if rows == [] then 0.0
    else
      var last := rows[|rows| - 1];
      RowTotal(rows[..|rows| - 1], j) + (if 0 <= j < |last| then last[j] else 0.0)
  }

  function RunTotal(rows: seq<real>): real {
    if rows == [] then 0.0 else RunTotal(rows[..|rows| - 1]) + rows[|rows| - 1]
  }

  /** The rows' sums are `before`, of the sequences so far, and this one's over its steps before t. */
  ghost predicate RowsHold(c: Conv, g: Vec, t: int, before: Vec, beforeBias: real, dws: seq<seq<real>>, dbs: seq<real>)
    requires c.Valid()
  {
    && (forall j :: 0 <= j < c.k ==> RowTotal(dws, j) == before(j) + Sum(0, t, WeightTerms(c, g, j)))
    && RunTotal(dbs) == beforeBias + Sum(0, t, GPre(c, g))
  }

  lemma OneRowMore(dws: seq<seq<real>>, dw: seq<real>, dbs: seq<real>, db: real)
    ensures forall j :: 0 <= j < |dw| ==> RowTotal(dws + [dw], j) == RowTotal(dws, j) + dw[j]
    ensures RunTotal(dbs + [db]) == RunTotal(dbs) + db
  {
    assert (dws + [dw])[..|dws|] == dws && (dbs + [db])[..|dbs|] == dbs;
  }

  lemma RowAdded(c: Conv, g: Vec, t0: int, t1: int, before: Vec, beforeBias: real, dws: seq<seq<real>>, dbs: seq<real>,
                 dw: seq<real>, db: real)
    requires c.Valid() && 0 <= t0 <= t1 && RowsHold(c, g, t0, before, beforeBias, dws, dbs)
      && SumsHold(c, g, t0, t1, dw, db)
    ensures RowsHold(c, g, t1, before, beforeBias, dws + [dw], dbs + [db])
  {
    hide Sum, GPre, WeightTerms, RowTotal, RunTotal;
    OneRowMore(dws, dw, dbs, db);
    SumSplit(0, t0, t1, GPre(c, g));
    forall j | 0 <= j < c.k
      ensures RowTotal(dws + [dw], j) == before(j) + Sum(0, t1, WeightTerms(c, g, j))
    {
      SumSplit(0, t0, t1, WeightTerms(c, g, j));
    }
  }

  /** One sequence: its runs in order, the first giving the state's gradient. */
  method BackwardSequence(c: Conv, g: Vec, run: nat, dws: seq<seq<real>>, dbs: seq<real>, ghost before: Vec,
                          ghost beforeBias: real)
    returns (dx: seq<real>, dstate: seq<real>, newDws: seq<seq<real>>, newDbs: seq<real>)
    requires c.Valid() && run > 0 && c.t > 0
    requires (forall j :: 0 <= j < c.k ==> RowTotal(dws, j) == before(j)) && RunTotal(dbs) == beforeBias
    ensures |dx| == c.t && forall u :: 0 <= u < c.t ==> dx[u] == GradHistory(c, g)(u)
    ensures |dstate| == c.w && forall s :: 0 <= s < c.w ==> dstate[s] == GradHistory(c, g)(s - c.w)
    ensures |newDws| == |dws| + (c.t + run - 1) / run
    ensures forall j :: 0 <= j < c.k ==> RowTotal(newDws, j) == before(j) + GradWeight(c, g)(j)
    ensures RunTotal(newDbs) == beforeBias + GradBias(c, g)
  {
    hide Sum, GradHistory, WeightTerms, GPre, SumsHold, FirstHold, RowTotal, RunTotal;
    var buffer := new real[c.t];
    newDws, newDbs, dstate := dws, dbs, [];
    var t0 := 0;
    RowsStart(c, g, before, beforeBias, dws, dbs);
    while t0 < c.t
      invariant 0 <= t0 && (t0 == 0 ==> |newDws| == |dws|)
      invariant t0 % run == 0 && |newDws| == |dws| + t0 / run
      invariant t0 - run < c.t
      invariant RowsHold(c, g, MinInt(t0, c.t), before, beforeBias, newDws, newDbs)
      invariant forall u :: 0 <= u < MinInt(t0, c.t) ==> buffer[u] == GradHistory(c, g)(u)
      invariant t0 > 0 ==> |dstate| == c.w && forall s :: 0 <= s < c.w ==> dstate[s] == GradHistory(c, g)(s - c.w)
    {
      ghost var was := buffer[..];
      var dw, db, first := BackwardRun(c, g, t0, run, buffer);
      InputsAt(c, g, t0, MinInt(t0 + run, c.t), was, buffer[..]);
      RowAdded(c, g, t0, MinInt(t0 + run, c.t), before, beforeBias, newDws, newDbs, dw, db);
      newDws, newDbs := newDws + [dw], newDbs + [db];
      if t0 == 0 {
        var ds := StateGradient(c, g, first);
        dstate := ds[..];
      }
      NextRun(t0, run);
      t0 := t0 + run;
    }
    RunCount(t0, run, c.t);
    dx := buffer[..];
    RowsEnd(c, g, before, beforeBias, newDws, newDbs);
  }

  lemma InputsAt(c: Conv, g: Vec, t0: int, t1: int, before: seq<real>, dx: seq<real>)
    requires c.Valid() && InputsHold(c, g, t0, t1, before, dx)
    ensures forall v :: 0 <= v < c.t ==> dx[v] == if t0 <= v < t1 then GradHistory(c, g)(v) else before[v]
  {
  }

  lemma RowsStart(c: Conv, g: Vec, before: Vec, beforeBias: real, dws: seq<seq<real>>, dbs: seq<real>)
    requires c.Valid()
    requires (forall j :: 0 <= j < c.k ==> RowTotal(dws, j) == before(j)) && RunTotal(dbs) == beforeBias
    ensures RowsHold(c, g, 0, before, beforeBias, dws, dbs)
  {
  }

  lemma RowsEnd(c: Conv, g: Vec, before: Vec, beforeBias: real, dws: seq<seq<real>>, dbs: seq<real>)
    requires c.Valid() && RowsHold(c, g, c.t, before, beforeBias, dws, dbs)
    ensures forall j :: 0 <= j < c.k ==> RowTotal(dws, j) == before(j) + GradWeight(c, g)(j)
    ensures RunTotal(dbs) == beforeBias + GradBias(c, g)
  {
    hide Sum;
  }

  lemma NextRun(t0: nat, run: nat)
    requires run > 0 && t0 % run == 0
    ensures (t0 + run) % run == 0 && (t0 + run) / run == t0 / run + 1
  {
    DivUnique(t0 + run, run, t0 / run + 1, 0);
  }

  lemma RunCount(t0: nat, run: nat, t: nat)
    requires run > 0 && t0 % run == 0 && t <= t0 < t + run
    ensures t0 / run == (t + run - 1) / run
  {
    DivUnique(t + run - 1, run, t0 / run, t + run - 1 - t0);
  }

  /** The sequences of a batch, one channel of each: the same taps, lengths and activation. */
  ghost predicate OneChannel(cs: seq<Conv>, k: nat, t: nat, w: nat) {
    forall b :: 0 <= b < |cs| ==> cs[b].Valid() && cs[b].k == k && cs[b].t == t && cs[b].w == w
  }

  /** The weight's and the bias's gradients over the first n sequences. */
  ghost function WeightOver(cs: seq<Conv>, gs: seq<Vec>, n: nat, j: int): real
    requires n <= |cs| == |gs| && forall b :: 0 <= b < |cs| ==> cs[b].Valid()
  {
    if n == 0 then 0.0 else WeightOver(cs, gs, n - 1, j) + GradWeight(cs[n - 1], gs[n - 1])(j)
  }

  ghost function BiasOver(cs: seq<Conv>, gs: seq<Vec>, n: nat): real
    requires n <= |cs| == |gs| && forall b :: 0 <= b < |cs| ==> cs[b].Valid()
  {
    if n == 0 then 0.0 else BiasOver(cs, gs, n - 1) + GradBias(cs[n - 1], gs[n - 1])
  }

  /** A sequence's inputs' and state's gradients. */
  ghost predicate HistoryDone(c: Conv, g: Vec, dx: seq<real>, dstate: seq<real>)
    requires c.Valid()
  {
    && |dx| == c.t && (forall u :: 0 <= u < c.t ==> dx[u] == GradHistory(c, g)(u))
    && |dstate| == c.w && (forall s :: 0 <= s < c.w ==> dstate[s] == GradHistory(c, g)(s - c.w))
  }

  /** The rows written so far hold the first n sequences' sums. */
  ghost predicate TotalsHold(cs: seq<Conv>, gs: seq<Vec>, n: nat, k: nat, dws: seq<seq<real>>, dbs: seq<real>)
    requires n <= |cs| == |gs| && forall b :: 0 <= b < |cs| ==> cs[b].Valid()
  {
    && (forall j :: 0 <= j < k ==> RowTotal(dws, j) == WeightOver(cs, gs, n, j))
    && RunTotal(dbs) == BiasOver(cs, gs, n)
  }

  function Totals(dws: seq<seq<real>>): Vec { j => RowTotal(dws, j) }

  /** The backward launch for one channel of a batch: the inputs' and states' gradients of every
      sequence, and one partial sum a row whose totals are the weight's and the bias's. */
  method BackwardKernels(cs: seq<Conv>, gs: seq<Vec>, k: nat, t: nat, w: nat, run: nat)
    returns (dx: seq<seq<real>>, dstate: seq<seq<real>>, dws: seq<seq<real>>, dbs: seq<real>)
    requires |cs| == |gs| && OneChannel(cs, k, t, w) && run > 0 && t > 0
    ensures |dx| == |dstate| == |cs| && |dws| == |cs| * ((t + run - 1) / run)
    ensures forall b :: 0 <= b < |cs| ==> HistoryDone(cs[b], gs[b], dx[b], dstate[b])
    ensures forall j :: 0 <= j < k ==> RowTotal(dws, j) == WeightOver(cs, gs, |cs|, j)
    ensures RunTotal(dbs) == BiasOver(cs, gs, |cs|)
  {
    hide HistoryDone, GradWeight, GradBias, RowTotal, RunTotal, TotalsHold, WeightOver, BiasOver, Conv.Valid;
    dx, dstate, dws, dbs := [], [], [], [];
    NoRows(cs, gs, k);
    var runs := (t + run - 1) / run;
    for b := 0 to |cs|
      invariant |dx| == |dstate| == b && |dws| == b * runs
      invariant forall a :: 0 <= a < b ==> HistoryDone(cs[a], gs[a], dx[a], dstate[a])
      invariant TotalsHold(cs, gs, b, k, dws, dbs)
    {
      var x, s, newDws, newDbs := BackwardSequence(cs[b], gs[b], run, dws, dbs, Totals(dws), RunTotal(dbs));
      IsDone(cs[b], gs[b], x, s);
      OneMoreRow(b, runs);
      TotalsAdvance(cs, gs, b, k, dws, dbs, newDws, newDbs);
      dx, dstate, dws, dbs := dx + [x], dstate + [s], newDws, newDbs;
    }
    TotalsAre(cs, gs, k, dws, dbs);
  }

  lemma NoRows(cs: seq<Conv>, gs: seq<Vec>, k: nat)
    requires |cs| == |gs| && forall b :: 0 <= b < |cs| ==> cs[b].Valid()
    ensures TotalsHold(cs, gs, 0, k, [], [])
  {
  }

  lemma TotalsAdvance(cs: seq<Conv>, gs: seq<Vec>, b: nat, k: nat, dws: seq<seq<real>>, dbs: seq<real>,
                      newDws: seq<seq<real>>, newDbs: seq<real>)
    requires b < |cs| == |gs| && forall a :: 0 <= a < |cs| ==> cs[a].Valid()
    requires TotalsHold(cs, gs, b, k, dws, dbs)
    requires forall j :: 0 <= j < k ==> RowTotal(newDws, j) == Totals(dws)(j) + GradWeight(cs[b], gs[b])(j)
    requires RunTotal(newDbs) == RunTotal(dbs) + GradBias(cs[b], gs[b])
    ensures TotalsHold(cs, gs, b + 1, k, newDws, newDbs)
  {
    hide GradWeight, GradBias, RowTotal, RunTotal;
  }

  lemma TotalsAre(cs: seq<Conv>, gs: seq<Vec>, k: nat, dws: seq<seq<real>>, dbs: seq<real>)
    requires |cs| == |gs| && forall a :: 0 <= a < |cs| ==> cs[a].Valid()
    requires TotalsHold(cs, gs, |cs|, k, dws, dbs)
    ensures forall j :: 0 <= j < k ==> RowTotal(dws, j) == WeightOver(cs, gs, |cs|, j)
    ensures RunTotal(dbs) == BiasOver(cs, gs, |cs|)
  {
  }

  lemma OneMoreRow(b: nat, runs: nat)
    ensures (b + 1) * runs == b * runs + runs
  {
  }

  lemma IsDone(c: Conv, g: Vec, dx: seq<real>, dstate: seq<real>)
    requires c.Valid()
    requires |dx| == c.t && forall u :: 0 <= u < c.t ==> dx[u] == GradHistory(c, g)(u)
    requires |dstate| == c.w && forall s :: 0 <= s < c.w ==> dstate[s] == GradHistory(c, g)(s - c.w)
    ensures HistoryDone(c, g, dx, dstate)
  {
  }
}
