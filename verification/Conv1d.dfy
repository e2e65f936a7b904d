/** The causal depthwise convolution: its definition over a zero-extended history, the forward kernel
    with its register window, run by run, the decoding step, and sequences run in pieces. */
module Conv1d {
  import opened Sums
  import opened Analysis
  import opened Integers

  /** SiLU or the identity. */
  function Activate(e: Exponential, silu: bool, y: real): real
    requires e.Laws()
  {
    if silu then y / (1.0 + e.exp(-y)) else y
  }

  /** One channel of one sequence: t steps of x after a state of w steps, k taps. */
  datatype Conv = Conv(e: Exponential, k: nat, t: nat, w: nat, silu: bool, weight: Vec, bias: real, x: Vec,
                       state: Vec) {

    ghost predicate Valid() { e.Laws() && k >= 1 && w >= k - 1 }

    /** The history: the inputs, before them the state, before that zeros. */
    function H(u: int): real {
      if 0 <= u < t then x(u) else if u < 0 <= w + u then state(w + u) else 0.0
    }

    function Taps(u: int): Vec { j => weight(j) * H(u - (k - 1) + j) }

    /** The pre-activation. */
    function Pre(u: int): real { Sum(0, k, Taps(u)) + bias }

    /** The contract's output. */
    function Out(u: int): real
      requires e.Laws()
    {
      Activate(e, silu, Pre(u))
    }

    /** The history's last `len` steps: what the next call continues from. */
    function LastSteps(len: nat): Vec { i => H(t - len + i) }
  }

  // ----- the forward kernel -----

  /** The window before step u: the k - 1 inputs before it. */
  ghost predicate WindowAt(c: Conv, u: int, win: seq<real>) {
    |win| == c.k && forall j :: 0 <= j < c.k - 1 ==> win[j] == c.H(u - (c.k - 1) + j)
  }

  /** The window before a run's first step, from the inputs or the state. */
  method LoadWindow(c: Conv, t0: nat) returns (win: array<real>)
    requires c.Valid() && t0 <= c.t
    ensures fresh(win) && win.Length == c.k && WindowAt(c, t0, win[..])
  {
    win := new real[c.k];
    for j := 0 to c.k - 1
      invariant forall i :: 0 <= i < j ==> win[i] == c.H(t0 - (c.k - 1) + i)
    {
      var t := t0 - (c.k - 1) + j;
      win[j] := if t >= 0 then c.x(t) else c.state(c.w + t);
    }
  }

  /** The taps against the window, the current step in its last place. */
  method TapSum(c: Conv, u: int, win: array<real>) returns (y: real)
    requires c.Valid() && win.Length == c.k && forall j :: 0 <= j < c.k ==> win[j] == c.H(u - (c.k - 1) + j)
    ensures y == Sum(0, c.k, c.Taps(u))
  {
    y := 0.0;
    for j := 0 to c.k
      invariant y == Sum(0, j, c.Taps(u))
    {
      y := y + c.weight(j) * win[j];
    }
  }

  /** Every place takes the next one's value, the last keeps its own. */
  method ShiftDown(a: array<real>)
    requires a.Length > 0
    modifies a
    ensures forall j :: 0 <= j < a.Length - 1 ==> a[j] == old(a[j + 1])
    ensures a[a.Length - 1] == old(a[a.Length - 1])
  {
    for j := 0 to a.Length - 1
      invariant forall i :: 0 <= i < j ==> a[i] == old(a[i + 1])
      invariant forall i :: j <= i < a.Length ==> a[i] == old(a[i])
    {
      a[j] := a[j + 1];
    }
  }

  /** A step: its input enters the window, its output is taken, the window slides. */
  method Step(c: Conv, t: nat, win: array<real>) returns (y: real)
    requires c.Valid() && t < c.t && win.Length == c.k && WindowAt(c, t, win[..])
    modifies win
    ensures WindowAt(c, t + 1, win[..])
    ensures y == c.Out(t)
  {
    hide Sum, Activate, Conv.H, WindowAt;
    WindowKept(c, t, win[..], c.x(t));
    win[c.k - 1] := c.x(t);
    assert win[..] == old(win[..])[c.k - 1 := c.x(t)];
    WindowFull(c, t, win[..]);
    ghost var was := win[..];
    var s := TapSum(c, t, win);
    y := Activate(c.e, c.silu, s + c.bias);
    ShiftDown(win);
    WindowSlides(c, t, was, win[..]);
  }

  /** The window with step t's input in its last place is the taps' window there. */
  lemma WindowFull(c: Conv, t: nat, win: seq<real>)
    requires c.k >= 1 && t < c.t && WindowAt(c, t, win) && win[c.k - 1] == c.x(t)
    ensures forall j :: 0 <= j < c.k ==> win[j] == c.H(t - (c.k - 1) + j)
  {
    hide Conv.H;
    InputIs(c, t);
  }

  /** The window's last place is free. */
  lemma WindowKept(c: Conv, t: int, win: seq<real>, x: real)
    requires c.k >= 1 && WindowAt(c, t, win)
    ensures |win| == c.k && WindowAt(c, t, win[c.k - 1 := x])
  {
  }

  /** Shifted down, it is the window before the next step. */
  lemma WindowSlides(c: Conv, t: nat, was: seq<real>, win: seq<real>)
    requires c.k >= 1 && |was| == |win| == c.k && forall j :: 0 <= j < c.k ==> was[j] == c.H(t - (c.k - 1) + j)
    requires forall j :: 0 <= j < c.k - 1 ==> win[j] == was[j + 1]
    ensures WindowAt(c, t + 1, win)
  {
    hide Conv.H;
    forall j | 0 <= j < c.k - 1
      ensures win[j] == c.H(t + 1 - (c.k - 1) + j)
    {
      assert t - (c.k - 1) + (j + 1) == t + 1 - (c.k - 1) + j;
    }
  }

  lemma InputIs(c: Conv, t: nat)
    requires t < c.t
    ensures c.x(t) == c.H(t)
  {
  }

  /** One thread of the forward kernel: a run of steps, the window sliding. */
  method ForwardRun(c: Conv, t0: nat, run: nat, out: array<real>)
    requires c.Valid() && t0 <= c.t && out.Length == c.t
    modifies out
    ensures forall t :: 0 <= t < c.t ==>
              out[t] == if t0 <= t < t0 + run then c.Out(t) else old(out[t])
  {
    hide WindowAt, Conv.Out;
    var win := LoadWindow(c, t0);
    var t1 := MinInt(t0 + run, c.t);
    for t := t0 to t1
      invariant win.Length == c.k && WindowAt(c, t, win[..])
      invariant forall u :: 0 <= u < c.t ==> out[u] == if t0 <= u < t then c.Out(u) else old(out[u])
    {
      out[t] := Step(c, t, win);
    }
  }

  /** All runs of one channel of one sequence: every step written, each by one run. */
  method Forward(c: Conv, run: nat) returns (out: array<real>)
    requires c.Valid() && run > 0
    ensures fresh(out) && out.Length == c.t
    ensures forall t :: 0 <= t < c.t ==> out[t] == c.Out(t)
  {
    out := new real[c.t];
    var t0 := 0;
    while t0 < c.t
      invariant 0 <= t0
      invariant forall t :: 0 <= t < MinInt(t0, c.t) ==> out[t] == c.Out(t)
    {
      ForwardRun(c, t0, run, out);
      t0 := t0 + run;
    }
  }

  /** The launch's rows, `runs` of them for each of `b` sequences: every step of every sequence is
      walked by exactly one row. */
  lemma RowOfStep(b: nat, t: nat, run: nat, seqno: nat, u: nat) returns (row: nat)
    requires run > 0 && seqno < b && u < t
    ensures var runs := (t + run - 1) / run;
            && runs > 0 && row < b * runs && Walks(t, run, runs, row, seqno, u)
            && forall other: nat :: other < b * runs && Walks(t, run, runs, other, seqno, u) ==> other == row
  {
    var runs := (t + run - 1) / run;
    RunsCover(t, run, u);
    row := seqno * runs + u / run;
    DivUnique(row, runs, seqno, u / run);
    ProductGrows(seqno + 1, b, runs);
    assert (seqno + 1) * runs == seqno * runs + runs;
    assert (u / run) * run <= u < (u / run) * run + run;
    forall other: nat | other < b * runs && Walks(t, run, runs, other, seqno, u)
      ensures other == row
    {
      RowDetermined(t, run, runs, other, seqno, u);
    }
  }

  lemma RowDetermined(t: nat, run: nat, runs: nat, row: nat, seqno: nat, u: nat)
    requires run > 0 && runs > 0 && Walks(t, run, runs, row, seqno, u)
    ensures row == seqno * runs + u / run
  {
    var r := row % runs;
    assert row == seqno * runs + r;
    DivUnique(u, run, r, u - r * run);
  }

  /** Row `row` of the launch walks step u of sequence seqno. */
  ghost predicate Walks(t: nat, run: nat, runs: nat, row: nat, seqno: nat, u: nat)
    requires runs > 0
  {
    row / runs == seqno && (row % runs) * run <= u < MinInt((row % runs) * run + run, t)
  }

  lemma RunsCover(t: nat, run: nat, u: nat)
    requires run > 0 && u < t
    ensures 0 <= u / run < (t + run - 1) / run
  {
    var q, runs := u / run, (t + run - 1) / run;
    assert t + run - 1 == runs * run + (t + run - 1) % run;
    assert q * run <= u;
    if q >= runs {
      ProductGrows(runs, q, run);
    }
  }

  // ----- sequences in pieces -----

  /** The steps from `at` on, continued from a state of `len` steps. */
  function From(c: Conv, at: nat, len: nat): Conv
    requires at <= c.t
  {
    Conv(c.e, c.k, c.t - at, len, c.silu, c.weight, c.bias, u => c.x(at + u), UpTo(c, at).LastSteps(len))
  }

  /** The first `at` steps alone. */
  function UpTo(c: Conv, at: nat): Conv
    requires at <= c.t
  {
    c.(t := at)
  }

  lemma UpToHistory(c: Conv, at: nat, u: int)
    requires at <= c.t
    ensures UpTo(c, at).H(u) == if u < at then c.H(u) else 0.0
  {
  }

  /** The piece's history is the whole's as far back as its state reaches. */
  lemma FromHistory(c: Conv, at: nat, len: nat, u: int)
    requires at <= c.t
    ensures From(c, at, len).H(u) == if len + u < 0 then 0.0 else c.H(at + u)
  {
    if u < 0 <= len + u {
      UpToHistory(c, at, at + u);
      assert From(c, at, len).state(len + u) == UpTo(c, at).H(at - len + (len + u));
    }
  }

  /** Split anywhere and continued from the final state of at least k - 1 steps, the outputs are the
      whole sequence's. */
  lemma SplitOutputs(c: Conv, at: nat, len: nat, u: int)
    requires c.Valid() && at <= c.t && len >= c.k - 1
    ensures 0 <= u < at ==> UpTo(c, at).Pre(u) == c.Pre(u) && UpTo(c, at).Out(u) == c.Out(u)
    ensures 0 <= u < c.t - at ==> From(c, at, len).Pre(u) == c.Pre(at + u) && From(c, at, len).Out(u) == c.Out(at + u)
  {
    if 0 <= u < at {
      forall j | 0 <= j < c.k
        ensures UpTo(c, at).Taps(u)(j) == c.Taps(u)(j)
      {
        UpToHistory(c, at, u - (c.k - 1) + j);
      }
      SumEqual(0, c.k, UpTo(c, at).Taps(u), c.Taps(u));
    }
    if 0 <= u < c.t - at {
      forall j | 0 <= j < c.k
        ensures From(c, at, len).Taps(u)(j) == c.Taps(at + u)(j)
      {
        FromHistory(c, at, len, u - (c.k - 1) + j);
        assert at + (u - (c.k - 1) + j) == (at + u) - (c.k - 1) + j;
      }
      SumEqual(0, c.k, From(c, at, len).Taps(u), c.Taps(at + u));
    }
  }

  /** And so is the final state, as long as it reaches no further back than the piece's history. */
  lemma SplitFinalState(c: Conv, at: nat, len: nat, final: nat, i: int)
    requires at <= c.t && final <= len + (c.t - at) && 0 <= i < final
    ensures From(c, at, len).LastSteps(final)(i) == c.LastSteps(final)(i)
  {
    FromHistory(c, at, len, c.t - at - final + i);
  }

  /** Reaching further back it meets zeros where the whole sequence may hold inputs: it is the whole's
      on every input exactly if it does not, or if the whole sequence has nothing there either. */
  lemma SplitFinalStateExact(c: Conv, at: nat, len: nat, final: nat)
    requires at <= c.t
    ensures (forall s, x, i :: 0 <= i < final ==>
               var whole := c.(state := s, x := x);
               From(whole, at, len).LastSteps(final)(i) == whole.LastSteps(final)(i))
       <==> MinInt(final, c.w + c.t) <= len + (c.t - at)
  {
    var reach := len + (c.t - at);
    if MinInt(final, c.w + c.t) <= reach {
      forall s, x, i | 0 <= i < final
        ensures var whole := c.(state := s, x := x);
                From(whole, at, len).LastSteps(final)(i) == whole.LastSteps(final)(i)
      {
        var whole := c.(state := s, x := x);
        var u := c.t - at - final + i;
        FromHistory(whole, at, len, u);
        assert len + u < 0 ==> whole.H(at + u) == 0.0;
        assert at + u == c.t - final + i;
      }
    } else {
      var ones: Vec := u => 1.0;
      var whole := c.(state := ones, x := ones);
      var i := final - reach - 1;
      FromHistory(whole, at, len, c.t - at - final + i);
      assert From(whole, at, len).LastSteps(final)(i) == 0.0;
      assert whole.LastSteps(final)(i) == whole.H(c.t - final + i) == 1.0;
    }
  }

  /** `history` and `last_steps`: the state and the inputs end to end, its last steps with zeros in
      front where it is shorter. */
  function History(c: Conv): seq<real> {
    seq(c.w + c.t, i requires 0 <= i < c.w + c.t => if i < c.w then c.state(i) else c.x(i - c.w))
  }

  function TakeLast(h: seq<real>, len: nat): seq<real> {
    if |h| >= len then h[|h| - len..] else seq(len - |h|, _ => 0.0) + h
  }

  lemma TakeLastIsLastSteps(c: Conv, len: nat)
    ensures |TakeLast(History(c), len)| == len
    ensures forall i :: 0 <= i < len ==> TakeLast(History(c), len)[i] == c.LastSteps(len)(i)
  {
    var h, p := History(c), c.w + c.t;
    forall i | 0 <= i < len
      ensures TakeLast(h, len)[i] == c.LastSteps(len)(i)
    {
      var at := p - len + i;
      assert c.LastSteps(len)(i) == c.H(at - c.w);
      if at >= 0 {
        assert TakeLast(h, len)[i] == h[at];
      } else {
        assert TakeLast(h, len)[i] == 0.0;
      }
    }
  }

  // ----- decoding -----

  /** The decoding step's taps: the state's last k - 1 steps, then the token. */
  method UpdateSum(ghost c: Conv, k: nat, w: nat, weight: Vec, token: real, state: array<real>) returns (y: real)
    requires k >= 1 && w >= k - 1 && state.Length == w
    requires c == OneStep(c.e, k, w, c.silu, weight, c.bias, token, state[..])
    ensures y == Sum(0, k, c.Taps(0))
  {
    y := 0.0;
    for j := 0 to k - 1
      invariant y == Sum(0, j, c.Taps(0))
    {
      y := y + weight(j) * state[w - (k - 1) + j];
    }
    y := y + weight(k - 1) * token;
  }

  /** The decoding step's kernel: the token's output, and the state without its oldest step followed by
      the token. */
  method Update(e: Exponential, k: nat, w: nat, silu: bool, weight: Vec, bias: real, token: real, state: array<real>)
    returns (out: real, next: array<real>)
    requires e.Laws() && k >= 1 && w >= k - 1 && w >= 1 && state.Length == w
    ensures fresh(next) && next[..] == NextState(state[..], token)
    ensures out == OneStep(e, k, w, silu, weight, bias, token, state[..]).Out(0)
  {
    hide Sum;
    var y := UpdateSum(OneStep(e, k, w, silu, weight, bias, token, state[..]), k, w, weight, token, state);
    out := Activate(e, silu, y + bias);
    next := new real[w];
    for s := 0 to w - 1
      invariant forall i :: 0 <= i < s ==> next[i] == state[i + 1]
    {
      next[s] := state[s + 1];
    }
    next[w - 1] := token;
  }

  /** The token as a sequence of one step from the state. */
  function OneStep(e: Exponential, k: nat, w: nat, silu: bool, weight: Vec, bias: real, token: real,
                   state: seq<real>): Conv {
    Conv(e, k, 1, w, silu, weight, bias, u => token, i => if 0 <= i < |state| then state[i] else 0.0)
  }

  /** The state after a step. */
  function NextState(state: seq<real>, token: real): seq<real>
    requires |state| > 0
  {
    state[1..] + [token]
  }

  /** The states of decoding: from the final state of a prompt of `prompt` steps, step after step. */
  function Decoded(c: Conv, prompt: nat, steps: nat): (s: seq<real>)
    requires c.w >= 1 && prompt + steps <= c.t
    ensures |s| == c.w
  {
    if steps == 0 then TakeLast(History(UpTo(c, prompt)), c.w)
    else NextState(Decoded(c, prompt, steps - 1), c.x(prompt + steps - 1))
  }

  lemma {:induction false} DecodedState(c: Conv, prompt: nat, steps: nat)
    requires c.w >= 1 && prompt + steps <= c.t
    ensures forall i :: 0 <= i < c.w ==> Decoded(c, prompt, steps)[i] == c.H(prompt + steps - c.w + i)
    decreases steps
  {
    hide TakeLast, History, UpTo, Conv.H;
    if steps == 0 {
      TakeLastIsLastSteps(UpTo(c, prompt), c.w);
      PromptState(c, prompt);
    } else {
      DecodedState(c, prompt, steps - 1);
      StateShifts(c, prompt + steps - 1, Decoded(c, prompt, steps - 1));
    }
  }

  lemma PromptState(c: Conv, prompt: nat)
    requires prompt <= c.t
    ensures UpTo(c, prompt).w == c.w
    ensures forall i :: 0 <= i < c.w ==> UpTo(c, prompt).LastSteps(c.w)(i) == c.H(prompt - c.w + i)
  {
    forall i | 0 <= i < c.w
      ensures UpTo(c, prompt).LastSteps(c.w)(i) == c.H(prompt - c.w + i)
    {
      UpToHistory(c, prompt, prompt - c.w + i);
    }
  }

  /** The state before step u, without its oldest step and with step u. */
  lemma StateShifts(c: Conv, u: nat, state: seq<real>)
    requires |state| == c.w >= 1 && u < c.t && forall i :: 0 <= i < c.w ==> state[i] == c.H(u - c.w + i)
    ensures forall i :: 0 <= i < c.w ==> NextState(state, c.x(u))[i] == c.H(u + 1 - c.w + i)
  {
    hide Conv.H;
    InputIs(c, u);
    forall i | 0 <= i < c.w
      ensures NextState(state, c.x(u))[i] == c.H(u + 1 - c.w + i)
    {
      if i < c.w - 1 {
        assert NextState(state, c.x(u))[i] == state[i + 1];
        assert u - c.w + (i + 1) == u + 1 - c.w + i;
      }
    }
  }

  /** A prompt of any length and then steps: the state stays the history's last w steps, and each step
      gives the whole sequence's output there. */
  lemma DecodingFollows(c: Conv, prompt: nat, steps: nat)
    requires c.Valid() && c.w >= 1 && prompt + steps <= c.t
    ensures forall i :: 0 <= i < c.w ==> Decoded(c, prompt, steps)[i] == c.H(prompt + steps - c.w + i)
    ensures prompt + steps < c.t ==>
              OneStep(c.e, c.k, c.w, c.silu, c.weight, c.bias, c.x(prompt + steps), Decoded(c, prompt, steps)).Out(0)
                == c.Out(prompt + steps)
  {
    hide Sum, Decoded;
    DecodedState(c, prompt, steps);
    var state, at := Decoded(c, prompt, steps), prompt + steps;
    if at < c.t {
      var one := OneStep(c.e, c.k, c.w, c.silu, c.weight, c.bias, c.x(at), state);
      forall j | 0 <= j < c.k
        ensures one.Taps(0)(j) == c.Taps(at)(j)
      {
        assert one.H(0 - (c.k - 1) + j) == c.H(at - (c.k - 1) + j);
      }
      SumEqual(0, c.k, one.Taps(0), c.Taps(at));
    }
  }
}
