/** Which keys a query sees, which tiles the blocked passes take, and the per-element test of the
    tile kernels. */
module AttentionBand {
  import opened Analysis
  import opened Integers

  /** A window side that leaves the side unbounded. */
  const USIZE_MAX: int := 0xFFFF_FFFF_FFFF_FFFF

  /** The furthest a tile kernel is told a query reaches. */
  const KERNEL_REACH: int := 0x4000_0000

  datatype Window = Window(left: nat, right: nat)

  datatype Options = Options(causal: bool, window: Option<Window>) {

    /** The contract's words: query i sits at key position i + Tk - Tq, sees no key after it if
        causal, and none further than the window's sides. */
    ghost predicate Allows(tq: nat, tk: nat, i: int, j: int) {
      var pos := i + tk - tq;
      && (causal ==> j <= pos)
      && (window.Some? && window.value.left != USIZE_MAX ==> pos - window.value.left <= j)
      && (window.Some? && window.value.right != USIZE_MAX ==> j <= pos + window.value.right)
    }
  }

  function Bound(x: nat): Option<nat> {
    if x == USIZE_MAX then None else Some(MinInt(x, I64_MAX))
  }

  /** The two sides of the band the options ask for; causality takes the place of the right one. */
  function Reach(options: Options): (Option<nat>, Option<nat>) {
    var left := if options.window.Some? then Bound(options.window.value.left) else None;
    var right :=
      if options.causal then Some(0)
      else if options.window.Some? then Bound(options.window.value.right)
      else None;
    (left, right)
  }

  datatype Geometry = Geometry(tq: nat, tk: nat, left: Option<nat>, right: Option<nat>) {

    /** Lengths are an array's dimensions, sides signed 64-bit numbers. */
    predicate Valid() {
      && tq <= I32_MAX && tk <= I32_MAX
      && (left.Some? ==> left.value <= I64_MAX) && (right.Some? ==> right.value <= I64_MAX)
    }

    /** Query i sits at key position i + Offset(). */
    function Offset(): int { tk - tq }

    /** The band: causality and the window. */
    predicate Sees(i: int, j: int) {
      && (left.Some? ==> i + Offset() - left.value <= j)
      && (right.Some? ==> j <= i + Offset() + right.value)
    }

    function Clamp(x: int, hi: nat): nat { if x < 0 then 0 else if x > hi then hi else x }

    /** The queries picked for the keys k0..k1, possibly none, the sums in 64 bits. */
    function QueriesFor(k0: int, k1: int): (nat, nat) {
      var lo := if right.Some? then Wrap64(k0 - Offset() - right.value) else 0;
      var hi := if left.Some? then Wrap64(k1 - Offset() + left.value) else tq;
      (Clamp(lo, tq), Clamp(hi, tq))
    }

    /** The keys picked for the queries q0..q1, possibly none, the sums in 64 bits. */
    function KeysFor(q0: int, q1: int): (nat, nat) {
      var lo := if left.Some? then Wrap64(q0 + Offset() - left.value) else 0;
      var hi := if right.Some? then Wrap64(q1 - 1 + Offset() + right.value + 1) else tk;
      (Clamp(lo, tk), Clamp(hi, tk))
    }

    /** The sums behind one pick fit 64 bits. */
    predicate QueriesFit(k0: int, k1: int) {
      && (right.Some? ==> k0 - Offset() - right.value >= -I64_MAX - 1)
      && (left.Some? ==> k1 - Offset() + left.value <= I64_MAX)
    }

    predicate KeysFit(q0: int, q1: int) {
      && (left.Some? ==> q0 + Offset() - left.value >= -I64_MAX - 1)
      && (right.Some? ==> q1 + Offset() + right.value <= I64_MAX)
    }

    /** The sums behind every pick of a pass fit: of keys, going forward, and of queries, going back. */
    predicate KeysAllFit() {
      && (left.Some? ==> tq - tk + left.value <= I64_MAX + 1)
      && (right.Some? ==> tk + right.value <= I64_MAX)
    }

    predicate QueriesAllFit() {
      && (left.Some? ==> tq + left.value <= I64_MAX)
      && (right.Some? ==> tk - tq + right.value <= I64_MAX + 1)
    }

    predicate PicksFit() {
      && (left.Some? ==> tq + left.value <= I64_MAX)
      && (right.Some? ==> tk + right.value <= I64_MAX)
    }

    /** A query is picked for the keys k0..k1 exactly if it sees one of them. */
    ghost predicate QueriesExact(k0: int, k1: int, i: int) {
      QueriesFor(k0, k1).0 <= i < QueriesFor(k0, k1).1 <==> exists j :: k0 <= j < k1 && Sees(i, j)
    }

    /** Every pick there can be is exact. */
    ghost predicate PicksExact() {
      && (forall k0, k1, i :: 0 <= k0 < k1 <= tk && 0 <= i < tq ==> QueriesExact(k0, k1, i))
      && (forall q0, q1, j :: 0 <= q0 < q1 <= tq && 0 <= j < tk ==> KeysExact(q0, q1, j))
    }

    /** A key is picked for the queries q0..q1 exactly if one of them sees it. */
    ghost predicate KeysExact(q0: int, q1: int, j: int) {
      KeysFor(q0, q1).0 <= j < KeysFor(q0, q1).1 <==> exists i :: q0 <= i < q1 && Sees(i, j)
    }

    function KernelReach(side: Option<nat>): nat {
      MinInt(if side.Some? then side.value else 0, KERNEL_REACH)
    }

    /** The band as the tile kernels test it, the ends of a query's reach in 32 bits. */
    predicate KernelSees(i: int, j: int) {
      && (left.Some? ==> Wrap32(i + Offset() - KernelReach(left)) <= j)
      && (right.Some? ==> j <= Wrap32(i + Offset() + KernelReach(right)))
    }

    /** A bounded side reaches as far in the kernels as in the call: it is told whole, or no two
        places of the call are further apart than what it is cut to. */
    predicate ToldWhole() {
      && (left.Some? ==> left.value <= KERNEL_REACH || tk <= KERNEL_REACH + 1)
      && (right.Some? ==> right.value <= KERNEL_REACH || tq <= KERNEL_REACH + 1)
    }

    /** The right end of the last query's reach fits 32 bits. */
    predicate RightFits() { right.Some? ==> tk - 1 + KernelReach(right) <= I32_MAX }

    /** The left end of every query's reach fits 32 bits, or the queries where it does not see no key
        at all. */
    predicate LeftFits() {
      left.Some? ==>
        || tq - tk + KernelReach(left) <= I32_MAX + 1
        || (right.Some? && right.value + KernelReach(left) <= I32_MAX + 1)
    }

    predicate FitsKernel() { ToldWhole() && RightFits() && LeftFits() }
  }

  /** Query block and tile arithmetic of one pass, in the tile kernels' terms. */
  datatype TileGeometry = TileGeometry(q0: int, k0: int, qn: int, offset: int, left: int, right: int,
                                       rowsPerBatch: int, hasLeft: bool, hasRight: bool)

  /** What `kernel_geometry` hands the kernels for the queries q0..q1 against keys from k0. */
  function KernelGeometry(g: Geometry, q0: int, q1: int, k0: int, rowsPerBatch: int): TileGeometry {
    TileGeometry(q0, k0, q1 - q0, g.Offset(), g.KernelReach(g.left), g.KernelReach(g.right),
                 rowsPerBatch, g.left.Some?, g.right.Some?)
  }

  /** Whether row r of a tile sees column c: the kernels' own test. */
  predicate DashVisible(geo: TileGeometry, keep: Option<(int, int) -> bool>, r: nat, c: nat)
    requires geo.qn > 0 && geo.rowsPerBatch > 0
  {
    var i := geo.q0 + r % geo.qn;
    var j := geo.k0 + c;
    var pos := i + geo.offset;
    && !(geo.hasLeft && j < Wrap32(pos - geo.left))
    && !(geo.hasRight && j > Wrap32(pos + geo.right))
    && !(keep.Some? && !keep.value(r / geo.rowsPerBatch, j))
  }

  /** The reach the options come to is the contract's band, for any lengths an i32 holds. */
  lemma ReachIsContract(options: Options, tq: nat, tk: nat, i: int, j: int)
    requires 0 <= i < tq <= I32_MAX && 0 <= j < tk <= I32_MAX
    ensures var (left, right) := Reach(options);
            Geometry(tq, tk, left, right).Sees(i, j) <==> options.Allows(tq, tk, i, j)
  {
  }

  /** Within a call a sum behind a pick stays where it is or wraps past everything there is. */
  lemma SideWraps(x: int)
    requires -I64_MAX - 0x2_0000_0000 <= x <= I64_MAX + 0x2_0000_0000
    ensures -I64_MAX - 1 <= x <= I64_MAX ==> Wrap64(x) == x
    ensures x > I64_MAX ==> Wrap64(x) < 0
    ensures x < -I64_MAX - 1 ==> Wrap64(x) > I32_MAX
  {
  }

  /** A query is picked for a block of keys exactly if the sums fit and it sees one of them. */
  lemma QueriesForExact(g: Geometry, k0: int, k1: int, i: int)
    requires g.Valid() && 0 <= k0 < k1 <= g.tk && 0 <= i < g.tq
    ensures g.QueriesFor(k0, k1).0 <= i < g.QueriesFor(k0, k1).1
       <==> g.QueriesFit(k0, k1) && exists j :: k0 <= j < k1 && g.Sees(i, j)
  {
    hide Wrap64;
    if g.right.Some? {
      SideWraps(k0 - g.Offset() - g.right.value);
    }
    if g.left.Some? {
      SideWraps(k1 - g.Offset() + g.left.value);
    }
    var pos := i + g.Offset();
    if g.QueriesFit(k0, k1) && g.QueriesFor(k0, k1).0 <= i < g.QueriesFor(k0, k1).1 {
      var j := if g.left.Some? && pos - g.left.value > k0 then pos - g.left.value
               else if g.right.Some? then MinInt(pos + g.right.value, k1 - 1)
               else k1 - 1;
      assert k0 <= j < k1 && g.Sees(i, j);
    }
  }

  /** A key is picked for a block of queries exactly if the sums fit and one of them sees it. */
  lemma KeysForExact(g: Geometry, q0: int, q1: int, j: int)
    requires g.Valid() && 0 <= q0 < q1 <= g.tq && 0 <= j < g.tk
    ensures g.KeysFor(q0, q1).0 <= j < g.KeysFor(q0, q1).1
       <==> g.KeysFit(q0, q1) && exists i :: q0 <= i < q1 && g.Sees(i, j)
  {
    hide Wrap64;
    if g.left.Some? {
      SideWraps(q0 + g.Offset() - g.left.value);
    }
    if g.right.Some? {
      SideWraps(q1 - 1 + g.Offset() + g.right.value + 1);
    }
    if g.KeysFit(q0, q1) && g.KeysFor(q0, q1).0 <= j < g.KeysFor(q0, q1).1 {
      var at := j - g.Offset();
      var i := if at < q0 then q0 else if at >= q1 then q1 - 1 else at;
      assert q0 <= i < q1 && g.Sees(i, j);
    }
  }

  /** Every block of every pass is picked for exactly if both sides, past the call's ends, fit 64 bits. */
  lemma PicksExactly(g: Geometry)
    requires g.Valid() && g.tq > 0 && g.tk > 0
    ensures g.PicksFit() <==> (g.KeysAllFit() && g.QueriesAllFit())
    ensures g.PicksFit() <==> g.PicksExact()
  {
    hide Geometry.QueriesFor, Geometry.KeysFor;
    if g.PicksFit() {
      forall k0, k1, i | 0 <= k0 < k1 <= g.tk && 0 <= i < g.tq
        ensures g.QueriesExact(k0, k1, i)
      {
        QueriesForExact(g, k0, k1, i);
      }
      forall q0, q1, j | 0 <= q0 < q1 <= g.tq && 0 <= j < g.tk
        ensures g.KeysExact(q0, q1, j)
      {
        KeysForExact(g, q0, q1, j);
      }
    } else {
      assert g.Sees(g.tq - 1, g.tk - 1);
      QueriesForExact(g, 0, g.tk, g.tq - 1);
      KeysForExact(g, 0, g.tq, g.tk - 1);
      assert !g.QueriesExact(0, g.tk, g.tq - 1) || !g.KeysExact(0, g.tq, g.tk - 1);
    }
  }

  /** One query and one key, causal, a left side of 2^63 - 1: they see each other, and going back no
      query is picked for the key. */
  lemma LeftPickWraps()
    ensures var options := Options(true, Some(Window(I64_MAX, 0)));
            var g := Geometry(1, 1, Reach(options).0, Reach(options).1);
            && g.Valid() && g.FitsKernel() && options.Allows(1, 1, 0, 0)
            && g.KernelSees(0, 0) && g.QueriesFor(0, 1) == (0, 0)
  {
    hide Wrap32, Wrap64;
    SideWraps(I64_MAX + 1);
    SideWraps(0);
    EndsWrap(Geometry(1, 1, Some(I64_MAX), Some(0)), 0);
  }

  /** The same pair, not causal, with that side on the right: going forward no key is picked. */
  lemma RightPickWraps()
    ensures var options := Options(false, Some(Window(0, I64_MAX)));
            var g := Geometry(1, 1, Reach(options).0, Reach(options).1);
            && g.Valid() && g.FitsKernel() && options.Allows(1, 1, 0, 0)
            && g.KernelSees(0, 0) && g.KeysFor(0, 1) == (0, 0)
  {
    hide Wrap32, Wrap64;
    SideWraps(I64_MAX + 1);
    SideWraps(0);
    EndsWrap(Geometry(1, 1, Some(0), Some(I64_MAX)), 0);
  }

  /** Within the call a query's position and what is left of 32 bits around it. */
  lemma EndsWrap(g: Geometry, i: int)
    requires g.Valid() && 0 <= i < g.tq
    ensures var low := i + g.Offset() - g.KernelReach(g.left);
            Wrap32(low) == if low < -I32_MAX - 1 then low + 0x1_0000_0000 else low
    ensures var high := i + g.Offset() + g.KernelReach(g.right);
            Wrap32(high) == if high > I32_MAX then high - 0x1_0000_0000 else high
  {
  }

  /** The kernels' band is the call's on every pair exactly if the sides are told whole and their
      ends fit 32 bits wherever it matters. */
  lemma KernelBandExact(g: Geometry)
    requires g.Valid() && g.tq > 0 && g.tk > 0
    ensures g.FitsKernel()
       <==> forall i, j :: 0 <= i < g.tq && 0 <= j < g.tk ==> (g.KernelSees(i, j) <==> g.Sees(i, j))
  {
    if g.FitsKernel() {
      forall i, j | 0 <= i < g.tq && 0 <= j < g.tk
        ensures g.KernelSees(i, j) <==> g.Sees(i, j)
      {
        EndsWrap(g, i);
      }
    } else {
      var p := PairApart(g);
      var (i, j) := p;
      assert 0 <= i < g.tq && 0 <= j < g.tk && !g.KernelSees(i, j) && g.Sees(i, j);
    }
  }

  /** Where it does not fit, a pair the call sees and the kernels do not. */
  lemma PairApart(g: Geometry) returns (p: (int, int))
    requires g.Valid() && g.tq > 0 && g.tk > 0 && !g.FitsKernel()
    ensures 0 <= p.0 < g.tq && 0 <= p.1 < g.tk && !g.KernelSees(p.0, p.1) && g.Sees(p.0, p.1)
  {
    if !g.RightFits() {
      p := (g.tq - 1, g.tk - 1);
    } else if !g.LeftFits() {
      p := (g.KernelReach(g.left) - I32_MAX - 2 - g.Offset(), 0);
    } else if g.left.Some? && g.left.value > KERNEL_REACH && g.tk > KERNEL_REACH + 1 {
      p := (g.tq - 1, g.tk - 1 - KERNEL_REACH - 1);
    } else {
      var far := g.tk - g.tq + KERNEL_REACH + 1;
      p := (MaxInt(far, 0) - far, MaxInt(far, 0));
    }
    EndsWrap(g, p.0);
  }

  /** A cache of 2^30 + 1 keys and a right side of 2^30: the end of the query's reach wraps and the
      kernels hide the key it sits at. */
  lemma EndWraps()
    ensures var g := Geometry(1, KERNEL_REACH + 1, None, Some(KERNEL_REACH));
            && g.Valid() && g.ToldWhole() && g.PicksFit()
            && g.Sees(0, KERNEL_REACH) && !g.KernelSees(0, KERNEL_REACH)
  {
  }

  /** A cut side and a wrapped end only ever hide keys, so the tiles chosen by the uncut band cover
      the kernels'. */
  lemma KernelSeesLess(g: Geometry, i: int, j: int)
    requires g.Valid() && 0 <= i < g.tq && g.KernelSees(i, j)
    ensures g.Sees(i, j)
  {
    EndsWrap(g, i);
  }

  /** Nested division: the row of a tile is in the batch element its head is in. */
  lemma DivDiv(r: int, a: int, b: int)
    requires a > 0 && b > 0
    ensures a * b > 0 && r / (a * b) == (r / a) / b
  {
    var q, rem := (r / a) / b, (r / a) % b;
    var low := r % a;
    assert r == (q * b + rem) * a + low;
    assert (q * b + rem) * a == q * (a * b) + rem * a;
    assert rem * a + low < a * b by {
      assert rem <= b - 1;
      assert rem * a <= (b - 1) * a;
    }
    DivUnique(r, a * b, q, rem * a + low);
  }

  /** The kernels' test on row r of a tile, r / qn the row's query head and heads of them to a
      batch element, is the band at its query and the padding of its batch element. */
  lemma DashVisibleIsBand(g: Geometry, keep: Option<(int, int) -> bool>, heads: int, q0: int, q1: int,
                          k0: int, r: nat, c: nat)
    requires q0 < q1 && heads > 0
    ensures heads * (q1 - q0) > 0
    ensures DashVisible(KernelGeometry(g, q0, q1, k0, heads * (q1 - q0)), keep, r, c)
       <==> (g.KernelSees(q0 + r % (q1 - q0), k0 + c)
         && (keep.Some? ==> keep.value((r / (q1 - q0)) / heads, k0 + c)))
  {
    DivDiv(r, q1 - q0, heads);
    assert (q1 - q0) * heads == heads * (q1 - q0);
  }
}
