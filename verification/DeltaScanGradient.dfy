/** The scan's gradients are the adjoint of its derivative: for one column of the state through every
    chunk, and for a head, whose columns share what the chunks carry. */
module DeltaScanGradient {
  import opened Sums
  import opened Vectors
  import opened Analysis
  import opened DeltaScan

  /** A direction in everything one column of the scan reads. */
  datatype Along = Along(w: int -> Mat, ks: int -> Mat, decay: Vec, u0: Mat, s0: Vec)

  // ----- the derivative -----

  function Fade(s: Scan, d: Along, i: int): Dual { Dual(s.decay(i), d.decay(i)) }

  /** The entering state along the direction, product rule and all. */
  function DualEnters(s: Scan, d: Along, i: nat): int -> Dual
    decreases i, 0
  {
    if i == 0 then x => Dual(s.s0(x), d.s0(x))
    else x => Fade(s, d, i - 1).Times(DualEnters(s, d, i - 1)(x)).Plus(SumDual(0, s.c, DualWritten(s, d, i - 1, x)))
  }

  function DualWritten(s: Scan, d: Along, i: nat, x: int): int -> Dual
    decreases i, 2
  {
    r => DualU(s, d, i)(r).Times(Dual(s.ks(i)(r, x), d.ks(i)(r, x)))
  }

  function DualU(s: Scan, d: Along, i: nat): int -> Dual
    decreases i, 1
  {
    r => Dual(s.u0(i, r), d.u0(i, r)).Minus(SumDual(0, s.dk, DualRead(s, d, i, r, DualEnters(s, d, i))))
  }

  function DualRead(s: Scan, d: Along, i: int, r: int, state: int -> Dual): int -> Dual {
    x => Dual(s.w(i)(r, x), d.w(i)(r, x)).Times(state(x))
  }

  function Moves(s: Scan, d: Along, i: nat): Vec { Tangents(DualEnters(s, d, i)) }

  function MovesU(s: Scan, d: Along, i: nat): Vec { Tangents(DualU(s, d, i)) }

  /** The dual scan carries the scan's own values. */
  lemma {:induction false} DualValues(s: Scan, d: Along, i: nat)
    ensures forall x :: DualEnters(s, d, i)(x).v == s.Enters(i)(x)
    decreases i
  {
    hide Sum, DualEnters, Scan.Enters;
    if i == 0 {
      forall x
        ensures DualEnters(s, d, 0)(x).v == s.Enters(0)(x)
      {
        DualStart(s, d, x);
      }
    } else {
      DualValues(s, d, i - 1);
      forall x
        ensures DualEnters(s, d, i)(x).v == s.Enters(i)(x)
      {
        DualStep(s, d, i - 1, x);
        DualStepValue(s, d, i - 1, x);
        EntersStep(s, i - 1, x);
      }
    }
  }

  lemma DualStart(s: Scan, d: Along, x: int)
    ensures DualEnters(s, d, 0)(x) == Dual(s.s0(x), d.s0(x)) && s.Enters(0)(x) == s.s0(x)
  {
  }

  lemma EntersStep(s: Scan, i: nat, x: int)
    ensures s.Enters(i + 1)(x) == s.decay(i) * s.Enters(i)(x) + Combine(s.c, s.U(i), s.ks(i))(x)
  {
    hide Combine, Scan.Made;
  }

  lemma DualStep(s: Scan, d: Along, i: nat, x: int)
    ensures DualEnters(s, d, i + 1)(x)
         == Fade(s, d, i).Times(DualEnters(s, d, i)(x)).Plus(SumDual(0, s.c, DualWritten(s, d, i, x)))
  {
    hide Sum, SumDual, DualWritten;
  }

  lemma DualStepValue(s: Scan, d: Along, i: nat, x: int)
    requires forall y :: DualEnters(s, d, i)(y).v == s.Enters(i)(y)
    ensures SumDual(0, s.c, DualWritten(s, d, i, x)).v == Combine(s.c, s.U(i), s.ks(i))(x)
  {
    hide Sum, DualEnters, Scan.Enters, Scan.U, DualU;
    forall r | 0 <= r < s.c
      ensures Values(DualWritten(s, d, i, x))(r) == Times(s.U(i), Col(s.ks(i), x))(r)
    {
      DualUValue(s, d, i, r);
    }
    SumEqual(0, s.c, Values(DualWritten(s, d, i, x)), Times(s.U(i), Col(s.ks(i), x)));
  }

  lemma DualUIs(s: Scan, d: Along, i: nat, r: int)
    ensures DualU(s, d, i)(r)
      == Dual(s.u0(i, r), d.u0(i, r)).Minus(SumDual(0, s.dk, DualRead(s, d, i, r, DualEnters(s, d, i))))
    ensures s.U(i)(r) == s.u0(i, r) - Dot(s.dk, Row(s.w(i), r), s.Enters(i))
  {
    hide Dot, SumDual, DualRead, DualEnters, Scan.Enters;
  }

  lemma DualUValue(s: Scan, d: Along, i: nat, r: int)
    requires forall y :: DualEnters(s, d, i)(y).v == s.Enters(i)(y)
    ensures DualU(s, d, i)(r).v == s.U(i)(r)
  {
    hide Sum, DualEnters, Scan.Enters, DualU, Scan.U;
    DualUIs(s, d, i, r);
    var read := DualRead(s, d, i, r, DualEnters(s, d, i));
    SumEqual(0, s.dk, Values(read), Times(Row(s.w(i), r), s.Enters(i)));
  }

  /** U' = u0' - w' S - w S'. */
  lemma MovesUIs(s: Scan, d: Along, i: nat, r: int)
    ensures MovesU(s, d, i)(r)
         == d.u0(i, r) - Project(s.dk, d.w(i), s.Enters(i))(r) - Project(s.dk, s.w(i), Moves(s, d, i))(r)
  {
    hide Sum, DualEnters, Scan.Enters;
    DualValues(s, d, i);
    var read := DualRead(s, d, i, r, DualEnters(s, d, i));
    SumAdd(0, s.dk, Times(Row(d.w(i), r), s.Enters(i)), Times(Row(s.w(i), r), Moves(s, d, i)), Tangents(read));
  }

  /** S'_{i+1} = d' S + d S' + ks'^T U + ks^T U'. */
  lemma MovesIs(s: Scan, d: Along, i: nat, x: int)
    ensures Moves(s, d, i + 1)(x)
         == d.decay(i) * s.Enters(i)(x) + s.decay(i) * Moves(s, d, i)(x)
            + (Combine(s.c, s.U(i), d.ks(i))(x) + Combine(s.c, MovesU(s, d, i), s.ks(i))(x))
  {
    hide Sum, DualU, DualEnters, Scan.Enters, Scan.U;
    DualValues(s, d, i);
    forall r | 0 <= r < s.c
      ensures Tangents(DualWritten(s, d, i, x))(r)
           == Times(s.U(i), Col(d.ks(i), x))(r) + Times(MovesU(s, d, i), Col(s.ks(i), x))(r)
    {
      DualUValue(s, d, i, r);
    }
    SumAdd(0, s.c, Times(s.U(i), Col(d.ks(i), x)), Times(MovesU(s, d, i), Col(s.ks(i), x)),
           Tangents(DualWritten(s, d, i, x)));
    DualStep(s, d, i, x);
  }

  // ----- one column -----

  /** What one chunk's own inputs owe: du0, dw, dks and the decay's, against the direction. */
  function ChunkShare(s: Scan, up: Upstream, d: Along, i: nat): real
    requires i < s.n
  {
    Dot(s.c, GradU(s, up, i), Row(d.u0, i))
    - Dot(s.c, GradU(s, up, i), Project(s.dk, d.w(i), s.Enters(i)))
    + Dot(s.c, s.U(i), Project(s.dk, d.ks(i), GradState(s, up, i + 1)))
    + d.decay(i) * Dot(s.dk, GradState(s, up, i + 1), s.Enters(i))
  }

  /** What flows in at chunk i against what the direction moves there. */
  function ChunkPairing(s: Scan, up: Upstream, d: Along, i: nat): real {
    Dot(s.dk, Row(up.states, i), Moves(s, d, i)) + Dot(s.c, Row(up.u, i), MovesU(s, d, i))
  }

  /** One chunk: the gradient of the state it leaves and its own pairing are the gradient of the state it
      enters and its share. */
  lemma ChunkBalances(s: Scan, up: Upstream, d: Along, i: nat)
    requires i < s.n
    ensures Dot(s.dk, GradState(s, up, i + 1), Moves(s, d, i + 1)) + ChunkPairing(s, up, d, i)
         == Dot(s.dk, GradState(s, up, i), Moves(s, d, i)) + ChunkShare(s, up, d, i)
  {
    hide Sum, Dot, Combine, Project, GradState, GradU, Scan.Enters, Scan.U, Moves, MovesU;
    var after, now, back := GradState(s, up, i + 1), Moves(s, d, i), s.Enters(i);
    var du, u' := GradU(s, up, i), MovesU(s, d, i);
    LeavingSplits(s, d, i, after);
    Adjoint(s.c, s.dk, s.U(i), d.ks(i), after);
    Adjoint(s.c, s.dk, u', s.ks(i), after);
    EnteringSplits(s, up, d, i);
    Adjoint(s.c, s.dk, du, s.w(i), now);
    UpstreamSplits(s, up, d, i);
    MovedSplits(s, d, i, du);
    DotSymmetric(s.c, u', du);
    Balance(Dot(s.dk, after, back), Dot(s.dk, after, now), d.decay(i), s.decay(i));
  }

  lemma Balance(a: real, b: real, d: real, f: real)
    ensures d * a + f * b == f * b + d * a
  {
  }

  lemma LeavingSplits(s: Scan, d: Along, i: nat, after: Vec)
    ensures Dot(s.dk, after, Moves(s, d, i + 1))
         == d.decay(i) * Dot(s.dk, after, s.Enters(i)) + s.decay(i) * Dot(s.dk, after, Moves(s, d, i))
            + (Dot(s.dk, after, Combine(s.c, s.U(i), d.ks(i)))
               + Dot(s.dk, after, Combine(s.c, MovesU(s, d, i), s.ks(i))))
  {
    hide Sum, Dot, Combine, Scan.Enters, Scan.U, Moves, MovesU;
    var first, second := Combine(s.c, s.U(i), d.ks(i)), Combine(s.c, MovesU(s, d, i), s.ks(i));
    forall x | 0 <= x < s.dk
      ensures Moves(s, d, i + 1)(x)
           == d.decay(i) * s.Enters(i)(x) + s.decay(i) * Moves(s, d, i)(x) + 1.0 * first(x) + 1.0 * second(x)
    {
      MovesIs(s, d, i, x);
    }
    DotFour(s.dk, after, d.decay(i), s.Enters(i), s.decay(i), Moves(s, d, i), 1.0, first, 1.0, second,
            Moves(s, d, i + 1));
  }

  lemma EnteringSplits(s: Scan, up: Upstream, d: Along, i: nat)
    requires i < s.n
    ensures Dot(s.dk, GradState(s, up, i), Moves(s, d, i))
         == s.decay(i) * Dot(s.dk, GradState(s, up, i + 1), Moves(s, d, i))
            + Dot(s.dk, Row(up.states, i), Moves(s, d, i))
            - Dot(s.dk, Moves(s, d, i), Combine(s.c, GradU(s, up, i), s.w(i)))
  {
    hide Sum, Dot, Combine, GradState, GradU, Moves;
    var now, after, taken := Moves(s, d, i), GradState(s, up, i + 1), Combine(s.c, GradU(s, up, i), s.w(i));
    forall x | 0 <= x < s.dk
      ensures GradState(s, up, i)(x)
           == s.decay(i) * after(x) + 1.0 * Row(up.states, i)(x) + -1.0 * taken(x) + 0.0 * taken(x)
    {
      GradStateAt(s, up, i, x);
    }
    DotFour(s.dk, now, s.decay(i), after, 1.0, Row(up.states, i), -1.0, taken, 0.0, taken, GradState(s, up, i));
    DotSymmetric(s.dk, GradState(s, up, i), now);
    DotSymmetric(s.dk, after, now);
    DotSymmetric(s.dk, Row(up.states, i), now);
  }

  lemma GradStateAt(s: Scan, up: Upstream, i: nat, x: int)
    requires i < s.n
    ensures GradState(s, up, i)(x)
         == s.decay(i) * GradState(s, up, i + 1)(x) + up.states(i, x) - Combine(s.c, GradU(s, up, i), s.w(i))(x)
  {
    hide Combine, GradU;
  }

  lemma UpstreamSplits(s: Scan, up: Upstream, d: Along, i: nat)
    requires i < s.n
    ensures Dot(s.c, GradU(s, up, i), MovesU(s, d, i))
         == Dot(s.c, Row(up.u, i), MovesU(s, d, i))
            + Dot(s.c, MovesU(s, d, i), Project(s.dk, s.ks(i), GradState(s, up, i + 1)))
  {
    hide Sum, Dot, GradState, MovesU;
    var moves, through := MovesU(s, d, i), Project(s.dk, s.ks(i), GradState(s, up, i + 1));
    forall r | 0 <= r < s.c
      ensures GradU(s, up, i)(r) == Row(up.u, i)(r) + through(r)
    {
    }
    DotPlus(s.c, moves, Row(up.u, i), through, GradU(s, up, i));
    DotSymmetric(s.c, GradU(s, up, i), moves);
    DotSymmetric(s.c, Row(up.u, i), moves);
  }

  lemma MovedSplits(s: Scan, d: Along, i: nat, du: Vec)
    ensures Dot(s.c, du, MovesU(s, d, i))
         == Dot(s.c, du, Row(d.u0, i)) - Dot(s.c, du, Project(s.dk, d.w(i), s.Enters(i)))
            - Dot(s.c, du, Project(s.dk, s.w(i), Moves(s, d, i)))
  {
    hide Sum, Dot, Project, Scan.Enters, Moves, MovesU;
    var first, second := Project(s.dk, d.w(i), s.Enters(i)), Project(s.dk, s.w(i), Moves(s, d, i));
    forall r | 0 <= r < s.c
      ensures MovesU(s, d, i)(r) == 1.0 * Row(d.u0, i)(r) + -1.0 * first(r) + -1.0 * second(r) + 0.0 * second(r)
    {
      MovesUIs(s, d, i, r);
    }
    DotFour(s.c, du, 1.0, Row(d.u0, i), -1.0, first, -1.0, second, 0.0, second, MovesU(s, d, i));
  }

  function Pairings(s: Scan, up: Upstream, d: Along): Vec {
    i => if 0 <= i < s.n then ChunkPairing(s, up, d, i) else 0.0
  }

  function Shares(s: Scan, up: Upstream, d: Along): Vec { i => if 0 <= i < s.n then ChunkShare(s, up, d, i) else 0.0 }

  lemma {:induction false} ChunksBalance(s: Scan, up: Upstream, d: Along, m: nat)
    requires m <= s.n
    ensures Dot(s.dk, GradState(s, up, m), Moves(s, d, m)) + Sum(0, m, Pairings(s, up, d))
         == Dot(s.dk, GradState(s, up, 0), d.s0) + Sum(0, m, Shares(s, up, d))
    decreases m
  {
    hide Dot, GradState, ChunkShare, ChunkPairing, DualU;
    if m == 0 {
      DotEqual(s.dk, GradState(s, up, 0), Moves(s, d, 0), GradState(s, up, 0), d.s0);
    } else {
      ChunksBalance(s, up, d, m - 1);
      ChunkBalances(s, up, d, m - 1);
    }
  }

  /** One column: everything that flows in, against what a direction moves, is the shares of the chunks
      and the gradient of the first state against its own direction. */
  lemma ColumnAdjoint(s: Scan, up: Upstream, d: Along)
    ensures Dot(s.dk, up.final, Moves(s, d, s.n)) + Sum(0, s.n, Pairings(s, up, d))
         == Dot(s.dk, GradState(s, up, 0), d.s0) + Sum(0, s.n, Shares(s, up, d))
  {
    hide Sum, Dot, Pairings, Shares, Moves;
    ChunksBalance(s, up, d, s.n);
  }

  // ----- a head -----

  /** A head's scan: dv columns of the state, and what they share. */
  datatype Head = Head(dk: nat, c: nat, n: nat, dv: nat, w: int -> Mat, ks: int -> Mat, decay: Vec, u0: int -> Mat,
                       s0: Mat) {

    function Column(z: int): Scan { Scan(dk, c, n, w, ks, decay, u0(z), Row(s0, z)) }
  }

  datatype HeadAlong = HeadAlong(w: int -> Mat, ks: int -> Mat, decay: Vec, u0: int -> Mat, s0: Mat) {

    function Column(z: int): Along { Along(w, ks, decay, u0(z), Row(s0, z)) }
  }

  /** Every column's dU of chunk i, its U, the state it enters with and the gradient of the one it leaves. */
  function GradUs(h: Head, up: int -> Upstream, i: nat): Mat
    requires i < h.n
  {
    (z, r) => GradU(h.Column(z), up(z), i)(r)
  }

  function Us(h: Head, i: nat): Mat { (z, r) => h.Column(z).U(i)(r) }

  function States(h: Head, i: nat): Mat { (z, x) => h.Column(z).Enters(i)(x) }

  function GradStates(h: Head, up: int -> Upstream, i: nat): Mat
    requires i <= h.n
  {
    (z, x) => GradState(h.Column(z), up(z), i)(x)
  }

  /** a b^T, summed over the columns. */
  function OverColumns(dv: int, a: Mat, b: Mat): Mat { (r, x) => Dot(dv, Col(a, r), Col(b, x)) }

  /** The gradients formed once every chunk's are known: -dU S^T, U dS^T and the sum of dS * S. */
  function GradW(h: Head, up: int -> Upstream, i: nat): Mat
    requires i < h.n
  {
    (r, x) => 0.0 - OverColumns(h.dv, GradUs(h, up, i), States(h, i))(r, x)
  }

  function GradKs(h: Head, up: int -> Upstream, i: nat): Mat
    requires i < h.n
  {
    OverColumns(h.dv, Us(h, i), GradStates(h, up, i + 1))
  }

  function GradDecay(h: Head, up: int -> Upstream, i: nat): real
    requires i < h.n
  {
    Inner(h.dv, h.dk, GradStates(h, up, i + 1), States(h, i))
  }

  /** The columns' products with one matrix are its product with the sum of their outer products. */
  lemma OuterAdds(dv: int, c: int, dk: int, a: Mat, b: Mat, m: Mat, pairs: Vec)
    requires forall z :: 0 <= z < dv ==> pairs(z) == Dot(c, Row(a, z), Project(dk, m, Row(b, z)))
    ensures Sum(0, dv, pairs) == Inner(c, dk, OverColumns(dv, a, b), m)
  {
    hide Sum, Dot;
    var terms: Mat := (r, z) => a(z, r) * Dot(dk, Row(m, r), Row(b, z));
    forall r | 0 <= r < c
      ensures RowPairs(dk, OverColumns(dv, a, b), m)(r) == Sum(0, dv, Row(terms, r))
    {
      OuterRow(dv, dk, a, b, m, r, Row(terms, r));
    }
    forall z | 0 <= z < dv
      ensures pairs(z) == Sum(0, c, Col(terms, z))
    {
      OuterColumn(c, dk, Row(a, z), m, Row(b, z), Col(terms, z));
    }
    SumExchange(0, c, RowPairs(dk, OverColumns(dv, a, b), m), 0, dv, pairs, terms);
  }

  lemma OuterRow(dv: int, dk: int, a: Mat, b: Mat, m: Mat, r: int, terms: Vec)
    requires forall z :: 0 <= z < dv ==> terms(z) == a(z, r) * Dot(dk, Row(m, r), Row(b, z))
    ensures Dot(dk, Row(OverColumns(dv, a, b), r), Row(m, r)) == Sum(0, dv, terms)
  {
    hide Sum;
    Adjoint(dv, dk, Col(a, r), b, Row(m, r));
    DotEqual(dk, Row(OverColumns(dv, a, b), r), Row(m, r), Combine(dv, Col(a, r), b), Row(m, r));
    DotSymmetric(dk, Combine(dv, Col(a, r), b), Row(m, r));
    forall z | 0 <= z < dv
      ensures terms(z) == Times(Col(a, r), Project(dk, b, Row(m, r)))(z)
    {
      DotSymmetric(dk, Row(m, r), Row(b, z));
    }
    SumEqual(0, dv, terms, Times(Col(a, r), Project(dk, b, Row(m, r))));
  }

  lemma OuterColumn(c: int, dk: int, a: Vec, m: Mat, b: Vec, terms: Vec)
    requires forall r :: 0 <= r < c ==> terms(r) == a(r) * Dot(dk, Row(m, r), b)
    ensures Dot(c, a, Project(dk, m, b)) == Sum(0, c, terms)
  {
    hide Sum, Dot;
    OuterColumnSum(c, a, Project(dk, m, b), terms);
  }

  lemma OuterColumnSum(c: int, a: Vec, f: Vec, terms: Vec)
    requires forall r :: 0 <= r < c ==> terms(r) == a(r) * f(r)
    ensures Dot(c, a, f) == Sum(0, c, terms)
  {
    SumEqual(0, c, Times(a, f), terms);
  }

  /** Chunk i's gradients against the direction: du0 by column, and those of what the columns share. */
  function SharedPairing(h: Head, up: int -> Upstream, d: HeadAlong, i: nat): real
    requires i < h.n
  {
    Inner(h.c, h.dk, GradW(h, up, i), d.w(i)) + Inner(h.c, h.dk, GradKs(h, up, i), d.ks(i))
      + d.decay(i) * GradDecay(h, up, i)
  }

  function StartPairs(h: Head, up: int -> Upstream, d: HeadAlong, i: nat): Vec
    requires i < h.n
  {
    z => Dot(h.c, GradU(h.Column(z), up(z), i), Row(d.u0(z), i))
  }

  /** Column z's dU against w' S, and its U against ks' dS. */
  function WPairs(h: Head, up: int -> Upstream, d: HeadAlong, i: nat): Vec
    requires i < h.n
  {
    z => Dot(h.c, Row(GradUs(h, up, i), z), Project(h.dk, d.w(i), Row(States(h, i), z)))
  }

  function KsPairs(h: Head, up: int -> Upstream, d: HeadAlong, i: nat): Vec
    requires i < h.n
  {
    z => Dot(h.c, Row(Us(h, i), z), Project(h.dk, d.ks(i), Row(GradStates(h, up, i + 1), z)))
  }

  lemma WPairsAdd(h: Head, up: int -> Upstream, d: HeadAlong, i: nat)
    requires i < h.n
    ensures 0.0 - Sum(0, h.dv, WPairs(h, up, d, i)) == Inner(h.c, h.dk, GradW(h, up, i), d.w(i))
  {
    hide Sum, Dot, Inner, Project, OverColumns, GradUs, States, GradW;
    OuterAdds(h.dv, h.c, h.dk, GradUs(h, up, i), States(h, i), d.w(i), WPairs(h, up, d, i));
    GradWPairs(h, up, d, i);
  }

  lemma KsPairsAdd(h: Head, up: int -> Upstream, d: HeadAlong, i: nat)
    requires i < h.n
    ensures Sum(0, h.dv, KsPairs(h, up, d, i)) == Inner(h.c, h.dk, GradKs(h, up, i), d.ks(i))
  {
    hide Sum, Dot, Inner, Project, OverColumns, Us, GradStates;
    OuterAdds(h.dv, h.c, h.dk, Us(h, i), GradStates(h, up, i + 1), d.ks(i), KsPairs(h, up, d, i));
  }

  /** The columns' shares of a chunk, gathered. */
  lemma SharesAdd(h: Head, up: int -> Upstream, d: HeadAlong, i: nat, shares: Vec)
    requires i < h.n && forall z :: 0 <= z < h.dv ==> shares(z) == ChunkShare(h.Column(z), up(z), d.Column(z), i)
    ensures Sum(0, h.dv, shares) == Sum(0, h.dv, StartPairs(h, up, d, i)) + SharedPairing(h, up, d, i)
  {
    hide Sum, Inner, ChunkShare, GradStates, States, GradW, GradKs, WPairs, KsPairs, StartPairs, RowPairs;
    var f := RowPairs(h.dk, GradStates(h, up, i + 1), States(h, i));
    forall z | 0 <= z < h.dv
      ensures shares(z)
           == StartPairs(h, up, d, i)(z) - WPairs(h, up, d, i)(z) + KsPairs(h, up, d, i)(z) + d.decay(i) * f(z)
    {
      ShareIs(h, up, d, i, z);
    }
    SumFour(h.dv, StartPairs(h, up, d, i), WPairs(h, up, d, i), KsPairs(h, up, d, i), d.decay(i), f, shares);
    WPairsAdd(h, up, d, i);
    KsPairsAdd(h, up, d, i);
    InnerIs(h.dv, h.dk, GradStates(h, up, i + 1), States(h, i));
  }

  lemma SumFour(n: int, a: Vec, b: Vec, e: Vec, scale: real, f: Vec, all: Vec)
    requires forall z :: 0 <= z < n ==> all(z) == a(z) - b(z) + e(z) + scale * f(z)
    ensures Sum(0, n, all) == Sum(0, n, a) - Sum(0, n, b) + Sum(0, n, e) + scale * Sum(0, n, f)
  {
    hide Sum;
    var first: Vec := z => 1.0 * a(z) + -1.0 * b(z);
    var second: Vec := z => 1.0 * e(z) + scale * f(z);
    SumAdd(0, n, first, second, all);
    SumLinear(0, n, 1.0, a, -1.0, b, first);
    SumLinear(0, n, 1.0, e, scale, f, second);
  }

  lemma InnerIs(n: int, d: int, a: Mat, b: Mat)
    ensures Inner(n, d, a, b) == Sum(0, n, RowPairs(d, a, b))
  {
  }

  lemma ShareIs(h: Head, up: int -> Upstream, d: HeadAlong, i: nat, z: int)
    requires i < h.n
    ensures ChunkShare(h.Column(z), up(z), d.Column(z), i)
         == StartPairs(h, up, d, i)(z) - WPairs(h, up, d, i)(z) + KsPairs(h, up, d, i)(z)
            + d.decay(i) * RowPairs(h.dk, GradStates(h, up, i + 1), States(h, i))(z)
  {
    hide Sum, GradState, GradU, Scan.Enters, Scan.U;
    var s := h.Column(z);
    var du, u, back, after := GradU(s, up(z), i), s.U(i), s.Enters(i), GradState(s, up(z), i + 1);
    ProjectEqual(h.c, h.dk, du, d.w(i), back, Row(GradUs(h, up, i), z), Row(States(h, i), z));
    ProjectEqual(h.c, h.dk, u, d.ks(i), after, Row(Us(h, i), z), Row(GradStates(h, up, i + 1), z));
    DotEqual(h.dk, after, back, Row(GradStates(h, up, i + 1), z), Row(States(h, i), z));
  }

  lemma ProjectEqual(c: int, dk: int, a: Vec, m: Mat, b: Vec, a': Vec, b': Vec)
    requires forall r :: 0 <= r < c ==> a(r) == a'(r)
    requires forall x :: 0 <= x < dk ==> b(x) == b'(x)
    ensures Dot(c, a, Project(dk, m, b)) == Dot(c, a', Project(dk, m, b'))
  {
    hide Sum, Dot;
    forall r | 0 <= r < c
      ensures Project(dk, m, b)(r) == Project(dk, m, b')(r)
    {
      DotEqual(dk, Row(m, r), b, Row(m, r), b');
    }
    DotEqual(c, a, Project(dk, m, b), a', Project(dk, m, b'));
  }

  lemma GradWPairs(h: Head, up: int -> Upstream, d: HeadAlong, i: nat)
    requires i < h.n
    ensures Inner(h.c, h.dk, GradW(h, up, i), d.w(i))
         == 0.0 - Inner(h.c, h.dk, OverColumns(h.dv, GradUs(h, up, i), States(h, i)), d.w(i))
  {
    hide Sum, OverColumns, GradUs, States;
    var outer := OverColumns(h.dv, GradUs(h, up, i), States(h, i));
    forall r | 0 <= r < h.c
      ensures RowPairs(h.dk, GradW(h, up, i), d.w(i))(r) == -1.0 * RowPairs(h.dk, outer, d.w(i))(r)
    {
      SumScale(0, h.dk, -1.0, Times(Row(outer, r), Row(d.w(i), r)), Times(Row(GradW(h, up, i), r), Row(d.w(i), r)));
    }
    SumScale(0, h.c, -1.0, RowPairs(h.dk, outer, d.w(i)), RowPairs(h.dk, GradW(h, up, i), d.w(i)));
  }

  // ----- all chunks of a head -----

  /** Column z: what flows in against what the direction moves. */
  function ColumnPairings(h: Head, up: int -> Upstream, d: HeadAlong): Vec {
    z => Dot(h.dk, up(z).final, Moves(h.Column(z), d.Column(z), h.n))
      + Sum(0, h.n, Pairings(h.Column(z), up(z), d.Column(z)))
  }

  function FirstPairs(h: Head, up: int -> Upstream, d: HeadAlong): Vec {
    z => Dot(h.dk, GradState(h.Column(z), up(z), 0), Row(d.s0, z))
  }

  /** Chunk i's gradients against the direction. */
  function ChunkPairs(h: Head, up: int -> Upstream, d: HeadAlong): Vec {
    i => if 0 <= i < h.n then Sum(0, h.dv, StartPairs(h, up, d, i)) + SharedPairing(h, up, d, i) else 0.0
  }

  function HeadShares(h: Head, up: int -> Upstream, d: HeadAlong): Mat {
    (i, z) => Shares(h.Column(z), up(z), d.Column(z))(i)
  }

  /** The scan's gradients are its adjoint over every column: the gradients of the entering states, of U and
      of the final states against what a direction moves is the gradients of the first states, of u0, of
      w, of ks and of the decays against the direction. */
  lemma HeadAdjoint(h: Head, up: int -> Upstream, d: HeadAlong)
    ensures Sum(0, h.dv, ColumnPairings(h, up, d))
         == Sum(0, h.dv, FirstPairs(h, up, d)) + Sum(0, h.n, ChunkPairs(h, up, d))
  {
    hide Sum, Dot, GradState, Pairings, Shares, ChunkShare, SharedPairing, StartPairs, Moves;
    var terms := HeadShares(h, up, d);
    forall i | 0 <= i < h.n
      ensures ChunkPairs(h, up, d)(i) == Sum(0, h.dv, Row(terms, i))
    {
      forall z | 0 <= z < h.dv
        ensures Row(terms, i)(z) == ChunkShare(h.Column(z), up(z), d.Column(z), i)
      {
        ShareAt(h.Column(z), up(z), d.Column(z), i);
      }
      SharesAdd(h, up, d, i, Row(terms, i));
    }
    forall z | 0 <= z < h.dv
      ensures ColumnPairings(h, up, d)(z) == FirstPairs(h, up, d)(z) + ColSums(terms, 0, h.n)(z)
    {
      ColumnAdjoint(h.Column(z), up(z), d.Column(z));
      SumEqual(0, h.n, Shares(h.Column(z), up(z), d.Column(z)), Col(terms, z));
    }
    SumAdd(0, h.dv, FirstPairs(h, up, d), ColSums(terms, 0, h.n), ColumnPairings(h, up, d));
    SumExchange(0, h.n, ChunkPairs(h, up, d), 0, h.dv, ColSums(terms, 0, h.n), terms);
  }

  lemma ShareAt(s: Scan, up: Upstream, d: Along, i: nat)
    requires i < s.n
    ensures Shares(s, up, d)(i) == ChunkShare(s, up, d, i)
  {
    hide ChunkShare;
  }
}
