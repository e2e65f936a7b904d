/** The state passed from chunk to chunk: the loops forward and backward over one of its columns, in
    place, and the proof that the gradients formed from what they keep are the adjoint of the scan over
    all columns. */
module DeltaScan {
  import opened Sums
  import opened Vectors

  /** One column of the state through n chunks of c tokens: u0(i, r) its own, the rest the head's. */
  datatype Scan = Scan(dk: nat, c: nat, n: nat, w: int -> Mat, ks: int -> Mat, decay: Vec, u0: Mat, s0: Vec) {

    /** u0 - w S. */
    function Made(i: int, s: Vec): Vec { r => u0(i, r) - Dot(dk, Row(w(i), r), s) }

    /** d S + ks^T U. */
    function Left(i: int, s: Vec, u: Vec): Vec { x => decay(i) * s(x) + Combine(c, u, ks(i))(x) }

    /** The state entering chunk i. */
    function Enters(i: nat): Vec {
      if i == 0 then s0 else Left(i - 1, Enters(i - 1), Made(i - 1, Enters(i - 1)))
    }

    function U(i: nat): Vec { Made(i, Enters(i)) }
  }

  /** The values a sequence holds. */
  ghost predicate Holds(n: nat, s: seq<real>, f: Vec) { |s| == n && forall x :: 0 <= x < n ==> s[x] == f(x) }

  /** A row against the values. */
  method Against(n: nat, row: Vec, values: seq<real>, ghost f: Vec) returns (acc: real)
    requires Holds(n, values, f)
    ensures acc == Dot(n, row, f)
  {
    acc := 0.0;
    for x := 0 to n
      invariant acc == Dot(x, row, f)
    {
      acc := acc + row(x) * values[x];
    }
  }

  /** Rows 0..n each against the values, added to or taken from what is there. */
  method Rows(n: nat, inner: nat, rows: Mat, sign: real, values: seq<real>, base: Vec, ghost f: Vec)
    returns (out: seq<real>)
    requires Holds(inner, values, f)
    ensures |out| == n && forall r :: 0 <= r < n ==> out[r] == base(r) + sign * Dot(inner, Row(rows, r), f)
  {
    hide Sum, Dot;
    out := [];
    for r := 0 to n
      invariant |out| == r && forall h :: 0 <= h < r ==> out[h] == base(h) + sign * Dot(inner, Row(rows, h), f)
    {
      var acc := Against(inner, Row(rows, r), values, f);
      out := out + [base(r) + sign * acc];
    }
  }

  /** One matrix's columns against the values, onto the state in place. */
  method AddTransposed(state: array<real>, c: nat, m: Mat, sign: real, values: seq<real>, ghost f: Vec)
    requires Holds(c, values, f)
    modifies state
    ensures forall x :: 0 <= x < state.Length ==> state[x] == old(state[x]) + sign * Combine(c, f, m)(x)
  {
    hide Sum, Dot;
    for x := 0 to state.Length
      invariant forall y :: 0 <= y < x ==> state[y] == old(state[y]) + sign * Combine(c, f, m)(y)
      invariant forall y :: x <= y < state.Length ==> state[y] == old(state[y])
    {
      var acc := Against(c, Col(m, x), values, f);
      DotSymmetric(c, Col(m, x), f);
      state[x] := state[x] + sign * acc;
    }
  }

  method Decay(state: array<real>, d: real, add: Vec)
    modifies state
    ensures forall x :: 0 <= x < state.Length ==> state[x] == d * old(state[x]) + add(x)
  {
    for x := 0 to state.Length
      invariant forall y :: 0 <= y < x ==> state[y] == d * old(state[y]) + add(y)
      invariant forall y :: x <= y < state.Length ==> state[y] == old(state[y])
    {
      state[x] := d * state[x] + add(x);
    }
  }

  function Zero(): Vec { x => 0.0 }

  /** One chunk: its U from the state it enters, and the state it leaves in place. */
  method ScanStep(s: Scan, i: nat, state: array<real>) returns (u: seq<real>)
    requires state.Length == s.dk && Holds(s.dk, state[..], s.Enters(i))
    modifies state
    ensures Holds(s.c, u, s.U(i)) && Holds(s.dk, state[..], s.Enters(i + 1))
  {
    hide Sum, Dot, Combine, Scan.Enters, Scan.U;
    ghost var entering := state[..];
    u := Rows(s.c, s.dk, s.w(i), -1.0, state[..], Row(s.u0, i), s.Enters(i));
    UIs(s, i);
    Decay(state, s.decay(i), Zero());
    AddTransposed(state, s.c, s.ks(i), 1.0, u, s.U(i));
    NextIs(s, i);
    assert forall x :: 0 <= x < s.dk ==> entering[x] == s.Enters(i)(x);
  }

  /** The forward loop: every entering state and every U kept, the state carried in place. */
  method ForwardScan(s: Scan) returns (states: seq<seq<real>>, us: seq<seq<real>>, last: seq<real>)
    ensures |states| == |us| == s.n
    ensures forall i :: 0 <= i < s.n ==> Holds(s.dk, states[i], s.Enters(i)) && Holds(s.c, us[i], s.U(i))
    ensures Holds(s.dk, last, s.Enters(s.n))
  {
    hide Scan.Enters, Scan.U;
    var state := new real[s.dk](x => s.s0(x));
    states, us := [], [];
    assert Holds(s.dk, state[..], s.s0) by { assert forall x :: 0 <= x < s.dk ==> state[x] == s.s0(x); }
    StartIs(s, state[..]);
    for i := 0 to s.n
      invariant |states| == |us| == i
      invariant forall h :: 0 <= h < i ==> Holds(s.dk, states[h], s.Enters(h)) && Holds(s.c, us[h], s.U(h))
      invariant Holds(s.dk, state[..], s.Enters(i))
    {
      states := states + [state[..]];
      var u := ScanStep(s, i, state);
      us := us + [u];
    }
    last := state[..];
  }

  lemma StartIs(s: Scan, start: seq<real>)
    requires Holds(s.dk, start, s.s0)
    ensures Holds(s.dk, start, s.Enters(0))
  {
  }

  lemma UIs(s: Scan, i: nat)
    ensures forall r :: s.U(i)(r) == Row(s.u0, i)(r) + -1.0 * Dot(s.dk, Row(s.w(i), r), s.Enters(i))
  {
    hide Sum, Dot, Scan.Enters;
  }

  lemma NextIs(s: Scan, i: nat)
    ensures forall x :: s.Enters(i + 1)(x) == s.decay(i) * s.Enters(i)(x) + Combine(s.c, s.U(i), s.ks(i))(x)
  {
    hide Sum, Dot, Combine, Scan.Made;
  }

  // ----- the backward loop -----

  /** What flows in: the gradients of every entering state, of every U and of the final state. */
  datatype Upstream = Upstream(states: Mat, u: Mat, final: Vec)

  /** The gradient of the state entering chunk i, i = n the final state's. */
  function GradState(s: Scan, up: Upstream, i: nat): Vec
    requires i <= s.n
    decreases s.n - i, 0
  {
    if i == s.n then up.final
    else x => s.decay(i) * GradState(s, up, i + 1)(x) + up.states(i, x) - Combine(s.c, GradU(s, up, i), s.w(i))(x)
  }

  function GradU(s: Scan, up: Upstream, i: nat): Vec
    requires i < s.n
    decreases s.n - i - 1, 1
  {
    r => up.u(i, r) + Dot(s.dk, Row(s.ks(i), r), GradState(s, up, i + 1))
  }

  ghost predicate StepGrads(s: Scan, up: Upstream, i: nat, du: seq<real>, next: seq<real>)
    requires i < s.n
  {
    Holds(s.c, du, GradU(s, up, i)) && Holds(s.dk, next, GradState(s, up, i + 1))
  }

  /** What the loop has kept, from chunk i on. */
  ghost predicate GradsFrom(s: Scan, up: Upstream, i: nat, dus: seq<seq<real>>, nexts: seq<seq<real>>) {
    && i + |dus| == i + |nexts| == s.n
    && forall p :: 0 <= p < |dus| ==> StepGrads(s, up, i + p, dus[p], nexts[p])
  }

  /** From the final state's gradient back: every dU, and the gradient of the state each chunk leaves. */
  method BackwardScan(s: Scan, up: Upstream) returns (dus: seq<seq<real>>, nexts: seq<seq<real>>, ds0: seq<real>)
    ensures GradsFrom(s, up, 0, dus, nexts)
    ensures Holds(s.dk, ds0, GradState(s, up, 0))
  {
    hide Sum, Dot, Combine, GradsFrom, StepGrads, GradState, GradU;
    var state := new real[s.dk](x => up.final(x));
    dus, nexts := [], [];
    assert Holds(s.dk, state[..], GradState(s, up, s.n)) by { FinalIs(s, up); }
    assert GradsFrom(s, up, s.n, dus, nexts) by { NoGrads(s, up); }
    for i := s.n downto 0
      invariant GradsFrom(s, up, i, dus, nexts)
      invariant Holds(s.dk, state[..], GradState(s, up, i))
    {
      ghost var leaving := state[..];
      var du := Rows(s.c, s.dk, s.ks(i), 1.0, state[..], Row(up.u, i), GradState(s, up, i + 1));
      GradUIs(s, up, i);
      GradsGrow(s, up, i, dus, nexts, du, leaving);
      dus, nexts := [du] + dus, [state[..]] + nexts;
      Decay(state, s.decay(i), Row(up.states, i));
      AddTransposed(state, s.c, s.w(i), -1.0, du, GradU(s, up, i));
      EnteringIs(s, up, i, leaving, state[..]);
    }
    ds0 := state[..];
  }

  lemma NoGrads(s: Scan, up: Upstream)
    ensures GradsFrom(s, up, s.n, [], [])
  {
  }

  lemma GradsGrow(s: Scan, up: Upstream, i: nat, dus: seq<seq<real>>, nexts: seq<seq<real>>, du: seq<real>,
                  next: seq<real>)
    requires i < s.n && GradsFrom(s, up, i + 1, dus, nexts)
    requires Holds(s.c, du, GradU(s, up, i)) && Holds(s.dk, next, GradState(s, up, i + 1))
    ensures GradsFrom(s, up, i, [du] + dus, [next] + nexts)
  {
    hide GradU, GradState;
    forall p | 0 <= p < |dus| + 1
      ensures StepGrads(s, up, i + p, ([du] + dus)[p], ([next] + nexts)[p])
    {
      if p > 0 {
        assert StepGrads(s, up, i + 1 + (p - 1), dus[p - 1], nexts[p - 1]);
      }
    }
  }

  lemma EnteringIs(s: Scan, up: Upstream, i: nat, leaving: seq<real>, state: seq<real>)
    requires i < s.n && |state| == s.dk && Holds(s.dk, leaving, GradState(s, up, i + 1))
    requires forall x :: 0 <= x < s.dk ==>
      state[x] == s.decay(i) * leaving[x] + Row(up.states, i)(x) + -1.0 * Combine(s.c, GradU(s, up, i), s.w(i))(x)
    ensures Holds(s.dk, state, GradState(s, up, i))
  {
    hide Sum, Combine, GradU;
  }

  lemma FinalIs(s: Scan, up: Upstream)
    ensures GradState(s, up, s.n) == up.final
  {
  }

  lemma GradUIs(s: Scan, up: Upstream, i: nat)
    requires i < s.n
    ensures forall r ::
      GradU(s, up, i)(r) == Row(up.u, i)(r) + 1.0 * Dot(s.dk, Row(s.ks(i), r), GradState(s, up, i + 1))
  {
    hide Sum, Dot, GradState;
  }
}
