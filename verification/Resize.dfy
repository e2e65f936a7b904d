/** Pillow's bilinear resize in 22-bit fixed point: the windows, their weights and their rounding,
    the 8-bit accumulators with their 32-bit wrap, and the two passes over an image. Taps are real
    numbers; everything from the fixed-point weights on is integer. */
module Resize {
  import opened Sums
  import opened Analysis
  import opened Integers

  type Byte = x: int | 0 <= x < 256

  const ONE: int := 0x40_0000
  const HALF: int := 0x20_0000

  /** C's cast: toward zero. */
  function Trunc(x: real): int { if x >= 0.0 then x.Floor else -((-x).Floor) }

  function Ceil(x: real): int { -((-x).Floor) }

  function Bilinear(x: real): real {
    var a := if x < 0.0 then -x else x;
    if a < 1.0 then 1.0 - a else 0.0
  }

  /** The tap of the place x under a centre, the filter stretched by 1 / ss. */
  function TapAt(x: int, center: real, ss: real): real { Bilinear((x as real - center + 0.5) * ss) }

  /** One side of the image resized: `from` places to `to`. */
  datatype Axis = Axis(from: nat, to: nat) {

    predicate Valid() { to > 0 }

    function Scale(): real
      requires Valid()
    {
      from as real / to as real
    }

    /** The filter's reach, stretched when the side shrinks. */
    function Support(): real
      requires Valid()
    {
      if Scale() < 1.0 then 1.0 else Scale()
    }

    function KSize(): int
      requires Valid()
    {
      Ceil(Support()) * 2 + 1
    }

    function Center(xx: int): real
      requires Valid()
    {
      (xx as real + 0.5) * Scale()
    }

    function Xmin(xx: int): int
      requires Valid()
    {
      MaxInt(Trunc(Center(xx) - Support() + 0.5), 0)
    }

    function Xmax(xx: int): int
      requires Valid()
    {
      MinInt(Trunc(Center(xx) + Support() + 0.5), from)
    }

    function N(xx: int): int
      requires Valid()
    {
      Xmax(xx) - Xmin(xx)
    }

    /** Tap x of place xx's window. */
    function Tap(xx: int, x: int): real
      requires Valid()
    {
      TapAt(x + Xmin(xx), Center(xx), 1.0 / Support())
    }

    function Taps(xx: int): Vec
      requires Valid()
    {
      x => Tap(xx, x)
    }

    function Whole(xx: int): real
      requires Valid()
    {
      Sum(0, N(xx), Taps(xx))
    }

    /** The normalised weight. */
    function Weight(xx: int, x: int): real
      requires Valid()
    {
      if Whole(xx) != 0.0 then Tap(xx, x) / Whole(xx) else Tap(xx, x)
    }

    /** The weight in fixed point, half a unit rounded away from zero. */
    function Fixed(xx: int, x: int): int
      requires Valid()
    {
      Rounded(Weight(xx, x))
    }

    function FixedWeights(xx: int): int -> int
      requires Valid()
    {
      x => Fixed(xx, x)
    }
  }

  function Rounded(w: real): int {
    var fixed := w * ONE as real;
    if w < 0.0 then Trunc(-0.5 + fixed) else Trunc(0.5 + fixed)
  }

  /** The sum of n integers. */
  function Total(n: int, f: int -> int): int
    decreases n
  {
    if n <= 0 then 0 else Total(n - 1, f) + f(n - 1)
  }

  // ----- the windows -----

  lemma FloorBounds(x: real)
    ensures x.Floor as real <= x < x.Floor as real + 1.0
  {
  }

  /** The quotient places xx's centre inside the side. */
  lemma CenterInside(a: Axis, xx: int)
    requires a.Valid() && a.from > 0 && 0 <= xx < a.to
    ensures 0.0 < a.Center(xx) < a.from as real
    ensures a.Scale() > 0.0
  {
    var s := a.Scale();
    assert s * a.to as real == a.from as real;
    assert s > 0.0;
    Ordered(xx as real + 0.5, a.to as real, s);
  }

  lemma Ordered(x: real, y: real, s: real)
    requires 0.0 < x < y && s > 0.0
    ensures 0.0 < x * s < y * s
  {
    assert (y - x) * s > 0.0;
  }

  /** The pixel under a centre c lies between the window's ends. */
  lemma MiddlePlace(c: real, s: real, from: int)
    requires 0.0 < c < from as real && s >= 1.0
    ensures MaxInt(Trunc(c - s + 0.5), 0) <= c.Floor < MinInt(Trunc(c + s + 0.5), from)
  {
    FloorBounds(c);
    FloorBounds(c + s + 0.5);
    if c - s + 0.5 >= 0.0 {
      FloorBounds(c - s + 0.5);
    }
  }

  /** The pixel under the centre is in the window and its tap is at least a half. */
  lemma MiddleTap(a: Axis, xx: int)
    requires a.Valid() && a.from > 0 && 0 <= xx < a.to
    ensures var p := a.Center(xx).Floor; a.Xmin(xx) <= p < a.Xmax(xx) && a.Tap(xx, p - a.Xmin(xx)) >= 0.5
  {
    hide Axis.Center, Axis.Scale, TapAt, Trunc, MaxInt, MinInt;
    CenterInside(a, xx);
    MiddlePlace(a.Center(xx), a.Support(), a.from);
    FloorBounds(a.Center(xx));
    MiddleTapAt(a.Center(xx).Floor, a.Center(xx), a.Support());
    assert a.Center(xx).Floor - a.Xmin(xx) + a.Xmin(xx) == a.Center(xx).Floor;
  }

  lemma MiddleTapAt(p: int, c: real, s: real)
    requires p as real <= c < p as real + 1.0 && s >= 1.0
    ensures TapAt(p, c, 1.0 / s) >= 0.5
  {
    hide TapAt;
    Inverse(s);
    StretchedTap(p, c, 1.0 / s);
  }

  lemma Inverse(s: real)
    requires s >= 1.0
    ensures 0.0 < 1.0 / s <= 1.0
  {
  }

  /** A place within half a place of the centre keeps at least half the filter's height. */
  lemma StretchedTap(p: int, c: real, t: real)
    requires p as real <= c < p as real + 1.0 && 0.0 < t <= 1.0
    ensures TapAt(p, c, t) >= 0.5
  {
    hide Bilinear;
    HalfStretched(p as real - c + 0.5, t);
    NearPeak((p as real - c + 0.5) * t);
  }

  lemma HalfStretched(d: real, t: real)
    requires -0.5 <= d <= 0.5 && 0.0 < t <= 1.0
    ensures -0.5 <= d * t <= 0.5
  {
    NotNegative(0.5 - d, t);
    NotNegative(0.5 + d, t);
    assert (0.5 - d) * t == 0.5 * t - d * t;
    assert (0.5 + d) * t == 0.5 * t + d * t;
  }

  lemma NearPeak(y: real)
    requires -0.5 <= y <= 0.5
    ensures Bilinear(y) >= 0.5
  {
  }

  lemma TapNonNegative(a: Axis, xx: int, x: int)
    requires a.Valid()
    ensures a.Tap(xx, x) >= 0.0
  {
  }

  /** Every window is nonempty, lies in the side, fits the table and has weight. */
  lemma WindowIsSound(a: Axis, xx: int)
    requires a.Valid() && a.from > 0 && 0 <= xx < a.to
    ensures 0 <= a.Xmin(xx) < a.Xmax(xx) <= a.from
    ensures 0 < a.N(xx) < a.KSize()
    ensures a.Whole(xx) > 0.0
  {
    hide Axis.Tap, Axis.Center, Axis.Support;
    MiddleTap(a, xx);
    WindowFits(a, xx);
    var p := a.Center(xx).Floor - a.Xmin(xx);
    forall x | 0 <= x < a.N(xx)
      ensures a.Taps(xx)(x) >= 0.0
    {
      TapNonNegative(a, xx, x);
    }
    SumAtLeast(0, a.N(xx), p, a.Taps(xx));
  }

  /** A window of the empty side is empty, and no window outgrows the table. */
  lemma WindowFits(a: Axis, xx: int)
    requires a.Valid()
    ensures a.N(xx) < a.KSize()
    ensures 0 <= xx < a.to ==> 0 <= a.N(xx)
  {
    hide Axis.Center;
    var c, s := a.Center(xx), a.Support();
    var lo, hi := c - s + 0.5, c + s + 0.5;
    CeilBound(s);
    TruncGap(lo, hi, s);
    if 0 <= xx < a.to {
      if a.from > 0 {
        MiddleTap(a, xx);
      } else {
        EmptyCenter(a, xx);
      }
    }
  }

  lemma EmptyCenter(a: Axis, xx: int)
    requires a.Valid() && a.from == 0
    ensures a.Center(xx) == 0.0
  {
  }

  lemma CeilBound(s: real)
    ensures s <= Ceil(s) as real < s + 1.0
  {
  }

  lemma TruncGap(lo: real, hi: real, s: real)
    requires hi - lo == 2.0 * s && s >= 1.0
    ensures Trunc(hi) - MaxInt(Trunc(lo), 0) < Ceil(s) * 2 + 1
  {
    CeilBound(s);
  }

  // ----- the weights -----

  lemma RoundedNear(w: real)
    requires w >= 0.0
    ensures Rounded(w) >= 0
    ensures -0.5 <= Rounded(w) as real - w * ONE as real <= 0.5
  {
  }

  /** The weights are not below 0 and sum to 1. */
  lemma WeightsNormalised(a: Axis, xx: int)
    requires a.Valid() && a.from > 0 && 0 <= xx < a.to
    ensures forall x :: a.Weight(xx, x) >= 0.0
    ensures Sum(0, a.N(xx), x => a.Weight(xx, x)) == 1.0
  {
    hide Axis.Tap, Axis.N, Sum;
    WindowIsSound(a, xx);
    var whole := a.Whole(xx);
    forall x
      ensures a.Weight(xx, x) >= 0.0 && a.Weight(xx, x) == (1.0 / whole) * a.Taps(xx)(x)
    {
      TapNonNegative(a, xx, x);
      Share(a.Tap(xx, x), whole);
    }
    SumScale(0, a.N(xx), 1.0 / whole, a.Taps(xx), x => a.Weight(xx, x));
    Share(whole, whole);
  }

  lemma Share(t: real, whole: real)
    requires whole > 0.0 && t >= 0.0
    ensures t / whole >= 0.0 && t / whole == (1.0 / whole) * t
    ensures whole / whole == 1.0
  {
  }

  /** Rounding each term moves the sum by at most half a unit a term. */
  lemma {:induction false} RoundedTotal(n: int, w: Vec, f: int -> int)
    requires n >= 0
    requires forall x :: 0 <= x < n ==> w(x) >= 0.0 && f(x) == Rounded(w(x))
    ensures 2.0 * (Total(n, f) as real - Sum(0, n, w) * ONE as real) <= n as real
    ensures 2.0 * (Sum(0, n, w) * ONE as real - Total(n, f) as real) <= n as real
    decreases n
  {
    if n > 0 {
      RoundedTotal(n - 1, w, f);
      RoundedNear(w(n - 1));
    }
  }

  /** The fixed-point weights of a window of n taps sum to within n/2 of 2^22. */
  lemma FixedTotal(a: Axis, xx: int)
    requires a.Valid() && a.from > 0 && 0 <= xx < a.to
    ensures forall x :: a.Fixed(xx, x) >= 0
    ensures -a.N(xx) <= 2 * (Total(a.N(xx), a.FixedWeights(xx)) - ONE) <= a.N(xx)
  {
    hide Axis.Weight, Axis.N, Rounded, Sum, Total;
    WindowIsSound(a, xx);
    WeightsNormalised(a, xx);
    forall x
      ensures a.Fixed(xx, x) >= 0
    {
      RoundedNear(a.Weight(xx, x));
    }
    RoundedTotal(a.N(xx), x => a.Weight(xx, x), a.FixedWeights(xx));
  }

  // ----- a pixel -----

  /** The accumulator after n taps, from the half that rounds. */
  function Accumulate(n: int, b: int -> int, w: int -> int): int
    decreases n
  {
    if n <= 0 then HALF else Wrap32(Accumulate(n - 1, b, w) + Wrap32(b(n - 1) * w(n - 1)))
  }

  function Products(b: int -> int, w: int -> int): int -> int { x => b(x) * w(x) }

  function Clip8(v: int): Byte {
    if v >= ONE * 256 then 255 else if v <= 0 then 0 else v / ONE
  }

  /** A line's bytes from a place on. */
  function From(line: int -> Byte, lo: int): int -> int { x => line(lo + x) }

  /** Place xx of a resized line. */
  function PixelOf(a: Axis, line: int -> Byte, xx: int): Byte
    requires a.Valid()
  {
    Clip8(Accumulate(a.N(xx), From(line, a.Xmin(xx)), a.FixedWeights(xx)))
  }

  lemma ScaledBetween(b: int, w: int, lo: int, hi: int)
    requires lo <= b <= hi && w >= 0
    ensures lo * w <= b * w <= hi * w
  {
  }

  lemma {:induction false} ProductsBetween(n: int, b: int -> int, w: int -> int, lo: int, hi: int)
    requires forall x :: 0 <= x < n ==> lo <= b(x) <= hi && w(x) >= 0
    ensures lo * Total(n, w) <= Total(n, Products(b, w)) <= hi * Total(n, w)
    decreases n
  {
    if n > 0 {
      ProductsBetween(n - 1, b, w, lo, hi);
      JoinBetween(Total(n - 1, w), Total(n - 1, Products(b, w)), b(n - 1), w(n - 1), lo, hi);
    }
  }

  lemma JoinBetween(whole: int, sum: int, b: int, w: int, lo: int, hi: int)
    requires lo * whole <= sum <= hi * whole && lo <= b <= hi && w >= 0
    ensures lo * (whole + w) <= sum + b * w <= hi * (whole + w)
  {
    ScaledBetween(b, w, lo, hi);
  }

  lemma WrapIs(x: int)
    ensures exists k: int :: Wrap32(x) == x + k * 0x1_0000_0000
    ensures -0x8000_0000 <= Wrap32(x) < 0x8000_0000
  {
    assert Wrap32(x) == x + -((x + 0x8000_0000) / 0x1_0000_0000) * 0x1_0000_0000;
  }

  lemma WrapShifts(x: int, k: int)
    ensures Wrap32(x + k * 0x1_0000_0000) == Wrap32(x)
  {
  }

  lemma Fits(x: int)
    requires -0x8000_0000 <= x < 0x8000_0000
    ensures Wrap32(x) == x
  {
  }

  lemma WrapAdds(x: int, y: int)
    ensures Wrap32(Wrap32(x) + Wrap32(y)) == Wrap32(x + y)
  {
    hide Wrap32;
    WrapIs(x);
    WrapIs(y);
    var k: int :| Wrap32(x) == x + k * 0x1_0000_0000;
    var l: int :| Wrap32(y) == y + l * 0x1_0000_0000;
    WrapShifts(x + y, k + l);
  }

  /** Whatever wraps on the way, the accumulator ends at the whole, wrapped once. */
  lemma {:induction false} AccumulateIs(n: int, b: int -> int, w: int -> int)
    ensures Accumulate(n, b, w) == Wrap32(HALF + Total(n, Products(b, w)))
    decreases n
  {
    hide Wrap32;
    if n <= 0 {
      Fits(HALF);
    } else {
      AccumulateIs(n - 1, b, w);
      WrapAdds(HALF + Total(n - 1, Products(b, w)), b(n - 1) * w(n - 1));
    }
  }

  lemma {:induction false} TotalNonNegative(n: int, f: int -> int)
    requires forall x :: 0 <= x < n ==> f(x) >= 0
    ensures Total(n, f) >= 0
    decreases n
  {
    if n > 0 {
      TotalNonNegative(n - 1, f);
    }
  }

  /** While the whole fits 32 bits, no step of the accumulator wraps. */
  lemma NeverWraps(n: int, b: int -> int, w: int -> int, m: int)
    requires 0 <= m <= n && forall x :: 0 <= x < n ==> Products(b, w)(x) >= 0
    requires HALF + Total(n, Products(b, w)) < 0x8000_0000
    ensures Accumulate(m, b, w) == HALF + Total(m, Products(b, w)) >= HALF
  {
    hide Wrap32, Total, Accumulate;
    TotalGrows(m, n, Products(b, w));
    TotalNonNegative(m, Products(b, w));
    AccumulateIs(m, b, w);
    Fits(HALF + Total(m, Products(b, w)));
  }

  lemma {:induction false} TotalGrows(m: int, n: int, f: int -> int)
    requires 0 <= m <= n && forall x :: 0 <= x < n ==> f(x) >= 0
    ensures Total(m, f) <= Total(n, f)
    decreases n - m
  {
    if m < n {
      TotalGrows(m, n - 1, f);
    }
  }

  // ----- what a pixel lies between -----

  /** The window's bytes lie between lo and hi. */
  ghost predicate Within(a: Axis, xx: int, line: int -> Byte, lo: Byte, hi: Byte)
    requires a.Valid()
  {
    forall p :: a.Xmin(xx) <= p < a.Xmax(xx) ==> lo <= line(p) <= hi
  }

  /** On every line a pixel lies between the bounds of its window. */
  ghost predicate KeepsBounds(a: Axis, xx: int)
    requires a.Valid()
  {
    forall line: int -> Byte, lo: Byte, hi: Byte :: lo <= hi && Within(a, xx, line, lo, hi) ==>
      lo <= PixelOf(a, line, xx) <= hi
  }

  function WholeFixed(a: Axis, xx: int): int
    requires a.Valid()
  {
    Total(a.N(xx), a.FixedWeights(xx))
  }

  /** The window's fixed-point weights, known from the two sizes, sum closely enough to 2^22 that not
      even 255 of what they miss, nor 254 of what they exceed, makes half a level. */
  predicate Balanced(a: Axis, xx: int)
    requires a.Valid()
  {
    -HALF <= 255 * (WholeFixed(a, xx) - ONE) && 254 * (WholeFixed(a, xx) - ONE) < HALF
  }

  /** A table small enough that rounding cannot add up to half a level. */
  predicate Exact(a: Axis)
    requires a.Valid()
  {
    255 * a.KSize() < ONE
  }

  lemma ExactIsBalanced(a: Axis, xx: int)
    requires a.Valid() && a.from > 0 && 0 <= xx < a.to && Exact(a)
    ensures Balanced(a, xx)
  {
    hide Axis.N, Axis.KSize, Axis.Fixed, Total;
    WindowIsSound(a, xx);
    FixedTotal(a, xx);
  }

  lemma WindowBytes(a: Axis, line: int -> Byte, xx: int, lo: Byte, hi: Byte)
    requires a.Valid() && a.from > 0 && 0 <= xx < a.to && Within(a, xx, line, lo, hi)
    ensures forall x :: 0 <= x < a.N(xx) ==>
      lo <= From(line, a.Xmin(xx))(x) <= hi && a.FixedWeights(xx)(x) >= 0
      && Products(From(line, a.Xmin(xx)), a.FixedWeights(xx))(x) >= 0
  {
    hide Axis.Xmin, Axis.Xmax, Axis.Fixed, Total;
    FixedTotal(a, xx);
    forall x | 0 <= x < a.N(xx)
      ensures Products(From(line, a.Xmin(xx)), a.FixedWeights(xx))(x) >= 0
    {
      ScaledBetween(line(a.Xmin(xx) + x), a.FixedWeights(xx)(x), 0, 255);
    }
  }

  lemma FlatClip(v: Byte, d: int)
    requires -HALF <= 255 * d && 254 * d < HALF
    ensures 0 <= HALF + v * (ONE + d) < 0x8000_0000 && Clip8(HALF + v * (ONE + d)) == v
  {
    assert v * (ONE + d) == v * ONE + v * d;
    if d >= 0 {
      ScaledBetween(v, d, 0, 255);
      assert v <= 254 ==> v * d <= 254 * d;
    } else {
      ScaledBetween(v, -d, 0, 255);
    }
  }

  lemma ClipMonotone(x: int, y: int)
    requires x <= y
    ensures Clip8(x) <= Clip8(y)
  {
  }

  /** With balanced weights an output byte lies between the least and the greatest byte of its window. */
  lemma PixelBetween(a: Axis, line: int -> Byte, xx: int, lo: Byte, hi: Byte)
    requires a.Valid() && a.from > 0 && 0 <= xx < a.to && Balanced(a, xx) && lo <= hi && Within(a, xx, line, lo, hi)
    ensures lo <= PixelOf(a, line, xx) <= hi
  {
    hide Axis.Xmin, Axis.N, Axis.Fixed, Total, Accumulate, Clip8, From, Products, Within;
    var b, w, n := From(line, a.Xmin(xx)), a.FixedWeights(xx), a.N(xx);
    WindowIsSound(a, xx);
    WindowBytes(a, line, xx, lo, hi);
    ProductsBetween(n, b, w, lo, hi);
    FlatClip(lo, Total(n, w) - ONE);
    FlatClip(hi, Total(n, w) - ONE);
    NeverWraps(n, b, w, n);
    ClipMonotone(HALF + lo * Total(n, w), HALF + Total(n, Products(b, w)));
    ClipMonotone(HALF + Total(n, Products(b, w)), HALF + hi * Total(n, w));
  }

  /** No weight exceeds 2^22. */
  lemma FixedAtMostOne(a: Axis, xx: int, x: int)
    requires a.Valid() && a.from > 0 && 0 <= xx < a.to && 0 <= x < a.N(xx)
    ensures a.Fixed(xx, x) <= ONE
  {
    hide Axis.Tap, Axis.N, Rounded, Sum;
    WindowIsSound(a, xx);
    forall i | 0 <= i < a.N(xx)
      ensures a.Taps(xx)(i) >= 0.0
    {
      TapNonNegative(a, xx, i);
    }
    SumAtLeast(0, a.N(xx), x, a.Taps(xx));
    AtMostWhole(a.Tap(xx, x), a.Whole(xx));
    RoundedAtMostOne(a.Weight(xx, x));
  }

  lemma AtMostWhole(t: real, whole: real)
    requires 0.0 <= t <= whole && whole > 0.0
    ensures 0.0 <= t / whole <= 1.0
  {
  }

  lemma RoundedAtMostOne(w: real)
    requires 0.0 <= w <= 1.0
    ensures Rounded(w) <= ONE
  {
  }

  /** The first place where the sum reaches two. */
  lemma {:induction false} ReachesTwo(n: int, w: int -> int) returns (m: int)
    requires n >= 0 && (forall x :: 0 <= x < n ==> 0 <= w(x) <= ONE) && Total(n, w) >= 2 * ONE
    ensures 0 <= m <= n && 2 * ONE <= Total(m, w) < 3 * ONE
    decreases n
  {
    if Total(n, w) < 3 * ONE {
      m := n;
    } else {
      m := ReachesTwo(n - 1, w);
    }
  }

  /** Ones before a place, zeros from it on. */
  function Step(at: int): int -> Byte { p => if p < at then 1 else 0 }

  lemma {:induction false} StepTotal(n: int, lo: int, m: int, w: int -> int)
    requires 0 <= m && n >= 0
    ensures Total(n, Products(From(Step(lo + m), lo), w)) == Total(if n < m then n else m, w)
    decreases n
  {
    if n > 0 {
      StepTotal(n - 1, lo, m, w);
      assert Products(From(Step(lo + m), lo), w)(n - 1) == if n - 1 < m then w(n - 1) else 0;
    }
  }

  lemma StepPixel(a: Axis, xx: int, m: int)
    requires a.Valid() && a.from > 0 && 0 <= xx < a.to && 0 <= m <= a.N(xx)
    ensures PixelOf(a, Step(a.Xmin(xx) + m), xx) == Clip8(Wrap32(HALF + Total(m, a.FixedWeights(xx))))
  {
    hide Axis.Xmin, Axis.N, Axis.Fixed, Total, Accumulate, Clip8, Wrap32, From, Products, Step;
    var n, w, lo := a.N(xx), a.FixedWeights(xx), a.Xmin(xx);
    AccumulateIs(n, From(Step(lo + m), lo), w);
    StepTotal(n, lo, m, w);
  }

  /** Where the weights are not balanced some line leaves its window's bounds. */
  lemma BoundsLost(a: Axis, xx: int) returns (line: int -> Byte, lo: Byte, hi: Byte)
    requires a.Valid() && a.from > 0 && 0 <= xx < a.to && !Balanced(a, xx)
    ensures lo <= hi && Within(a, xx, line, lo, hi) && !(lo <= PixelOf(a, line, xx) <= hi)
  {
    hide Axis.Xmin, Axis.Xmax, Axis.N, Axis.Fixed, Total, Clip8, Wrap32, PixelOf;
    FixedTotal(a, xx);
    WindowIsSound(a, xx);
    var w, n := a.FixedWeights(xx), a.N(xx);
    var d := Total(n, w) - ONE;
    TotalNonNegative(n, w);
    if d < ONE {
      var v: Byte := if 255 * d < -HALF then 255 else 254;
      line, lo, hi := Flat(v), v, v;
      FlatPixel(a, xx, v);
      FlatLost(v, d);
      Fits(HALF + v * (ONE + d));
    } else {
      forall x | 0 <= x < n
        ensures w(x) <= ONE
      {
        FixedAtMostOne(a, xx, x);
      }
      var m := ReachesTwo(n, w);
      line, lo, hi := Step(a.Xmin(xx) + m), 0, 1;
      StepPixel(a, xx, m);
      Fits(HALF + Total(m, w));
      TwoLevels(HALF + Total(m, w));
    }
  }

  lemma TwoLevels(ss: int)
    requires ss >= 2 * ONE
    ensures Clip8(ss) >= 2
  {
  }

  /** On every line a pixel lies between the bounds of its window exactly when the weights are
      balanced. */
  lemma BoundsKeptExactly(a: Axis, xx: int)
    requires a.Valid() && a.from > 0 && 0 <= xx < a.to
    ensures KeepsBounds(a, xx) <==> Balanced(a, xx)
  {
    hide PixelOf, Balanced, Within;
    if Balanced(a, xx) {
      forall line: int -> Byte, lo: Byte, hi: Byte | lo <= hi && Within(a, xx, line, lo, hi)
        ensures lo <= PixelOf(a, line, xx) <= hi
      {
        PixelBetween(a, line, xx, lo, hi);
      }
    } else {
      var line, lo, hi := BoundsLost(a, xx);
      assert Within(a, xx, line, lo, hi);
    }
  }

  /** The window's bytes blended in exact arithmetic. */
  function BlendTerms(a: Axis, line: int -> Byte, xx: int): Vec
    requires a.Valid()
  {
    x => a.Weight(xx, x) * line(a.Xmin(xx) + x) as real
  }

  function Blend(a: Axis, line: int -> Byte, xx: int): real
    requires a.Valid()
  {
    Sum(0, a.N(xx), BlendTerms(a, line, xx))
  }

  lemma RoundedTerm(w: real, b: int)
    requires w >= 0.0 && 0 <= b < 256
    ensures -255.0 <= 2.0 * ((b * Rounded(w)) as real - w * b as real * ONE as real) <= 255.0
  {
    RoundedNear(w);
    var d := Rounded(w) as real - w * ONE as real;
    RealSpread(b as real, d);
    assert (b * Rounded(w)) as real == b as real * Rounded(w) as real;
    assert b as real * d == b as real * Rounded(w) as real - w * b as real * ONE as real;
  }

  lemma RealSpread(b: real, d: real)
    requires 0.0 <= b <= 255.0 && -0.5 <= d <= 0.5
    ensures -255.0 <= 2.0 * (b * d) <= 255.0
  {
    NotNegative(b, 0.5 - d);
    NotNegative(b, 0.5 + d);
    assert b * (0.5 - d) == 0.5 * b - b * d;
    assert b * (0.5 + d) == 0.5 * b + b * d;
  }

  lemma NotNegative(x: real, y: real)
    requires x >= 0.0 && y >= 0.0
    ensures x * y >= 0.0
  {
  }

  lemma {:induction false} ProductsNear(n: int, b: int -> int, w: Vec, f: int -> int, t: Vec)
    requires n >= 0
    requires forall x :: 0 <= x < n ==>
      0 <= b(x) < 256 && w(x) >= 0.0 && f(x) == Rounded(w(x)) && t(x) == w(x) * b(x) as real
    ensures var gap := 2.0 * (Total(n, Products(b, f)) as real - Sum(0, n, t) * ONE as real);
            -255.0 * n as real <= gap <= 255.0 * n as real
    decreases n
  {
    hide Rounded;
    if n > 0 {
      ProductsNear(n - 1, b, w, f, t);
      RoundedTerm(w(n - 1), b(n - 1));
      assert Products(b, f)(n - 1) == b(n - 1) * Rounded(w(n - 1));
      JoinNear(n, Total(n - 1, Products(b, f)), Sum(0, n - 1, t), b(n - 1) * Rounded(w(n - 1)), t(n - 1));
    }
  }

  lemma JoinNear(n: int, whole: int, exact: real, p: int, t: real)
    requires -255.0 * (n - 1) as real <= 2.0 * (whole as real - exact * ONE as real) <= 255.0 * (n - 1) as real
    requires -255.0 <= 2.0 * (p as real - t * ONE as real) <= 255.0
    ensures -255.0 * n as real <= 2.0 * ((whole + p) as real - (exact + t) * ONE as real) <= 255.0 * n as real
  {
  }

  lemma BlendInRange(a: Axis, line: int -> Byte, xx: int)
    requires a.Valid() && a.from > 0 && 0 <= xx < a.to
    ensures 0.0 <= Blend(a, line, xx) <= 255.0
  {
    hide Sum, Axis.Weight, Axis.N, Axis.Xmin;
    WeightsNormalised(a, xx);
    var most: Vec := x => 255.0 * a.Weight(xx, x);
    forall x | 0 <= x < a.N(xx)
      ensures 0.0 <= BlendTerms(a, line, xx)(x)
      ensures BlendTerms(a, line, xx)(x) <= most(x)
    {
      var term, w, b := BlendTerms(a, line, xx)(x), a.Weight(xx, x), line(a.Xmin(xx) + x);
      ShareOfByte(w, b);
      assert term == w * b as real;
    }
    SumNonNegative(0, a.N(xx), BlendTerms(a, line, xx));
    SumMonotone(0, a.N(xx), BlendTerms(a, line, xx), most);
    SumScale(0, a.N(xx), 255.0, x => a.Weight(xx, x), most);
  }

  lemma ShareOfByte(w: real, b: Byte)
    requires w >= 0.0
    ensures 0.0 <= w * b as real <= 255.0 * w
  {
    NotNegative(w, b as real);
    NotNegative(w, 255.0 - b as real);
    assert w * (255.0 - b as real) == 255.0 * w - w * b as real;
  }

  /** While white fits the accumulator, an output byte is within half a level, and half a unit of the
      fixed point for every tap and level, of its window's exact blend. */
  lemma PixelNearBlend(a: Axis, line: int -> Byte, xx: int)
    requires a.Valid() && a.from > 0 && 0 <= xx < a.to && HALF + 255 * WholeFixed(a, xx) < 0x8000_0000
    ensures var gap := 2.0 * ONE as real * (PixelOf(a, line, xx) as real - Blend(a, line, xx));
            -(ONE + 255 * a.N(xx)) as real <= gap <= (ONE + 255 * a.N(xx)) as real
  {
    hide Axis.Xmin, Axis.Xmax, Axis.N, Axis.Weight, Rounded, Total, Accumulate, Clip8, Sum, From, Products, Within,
         Blend;
    var b, w, n := From(line, a.Xmin(xx)), a.FixedWeights(xx), a.N(xx);
    assert Within(a, xx, line, 0, 255) by { AnyByte(a, xx, line); }
    WindowIsSound(a, xx);
    WindowBytes(a, line, xx, 0, 255);
    WeightsNormalised(a, xx);
    BlendInRange(a, line, xx);
    ProductsBetween(n, b, w, 0, 255);
    NeverWraps(n, b, w, n);
    BlendNear(a, line, xx);
    ClipNear(Total(n, Products(b, w)), Blend(a, line, xx), n);
  }

  lemma AnyByte(a: Axis, xx: int, line: int -> Byte)
    requires a.Valid()
    ensures Within(a, xx, line, 0, 255)
  {
  }

  lemma BlendNear(a: Axis, line: int -> Byte, xx: int)
    requires a.Valid() && a.from > 0 && 0 <= xx < a.to
    ensures var p := Total(a.N(xx), Products(From(line, a.Xmin(xx)), a.FixedWeights(xx)));
            -255.0 * a.N(xx) as real <= 2.0 * (p as real - Blend(a, line, xx) * ONE as real) <= 255.0 * a.N(xx) as real
  {
    hide Axis.Xmin, Axis.N, Axis.Weight, Rounded, Total, Sum, Products;
    WindowIsSound(a, xx);
    WeightsNormalised(a, xx);
    ProductsNear(a.N(xx), From(line, a.Xmin(xx)), x => a.Weight(xx, x), a.FixedWeights(xx), BlendTerms(a, line, xx));
  }

  lemma ClipNear(p: int, blend: real, n: int)
    requires p >= 0 && n >= 0 && 0.0 <= blend <= 255.0
    requires -255.0 * n as real <= 2.0 * (p as real - blend * ONE as real) <= 255.0 * n as real
    ensures var gap := 2.0 * ONE as real * (Clip8(HALF + p) as real - blend);
            -(ONE + 255 * n) as real <= gap <= (ONE + 255 * n) as real
  {
    var q := (HALF + p) / ONE;
    assert q * ONE <= HALF + p < q * ONE + ONE;
  }

  /** Where the table is small that is less than a level. */
  lemma PixelWithinLevel(a: Axis, line: int -> Byte, xx: int)
    requires a.Valid() && a.from > 0 && 0 <= xx < a.to && Exact(a)
    ensures -1.0 < PixelOf(a, line, xx) as real - Blend(a, line, xx) < 1.0
  {
    hide Axis.N, Axis.KSize, PixelOf, Blend, Total;
    ExactIsBalanced(a, xx);
    WindowIsSound(a, xx);
    FlatClip(255, WholeFixed(a, xx) - ONE);
    PixelNearBlend(a, line, xx);
  }

  // ----- lines of one value -----

  function Flat(v: Byte): int -> Byte { p => v }

  ghost predicate KeepsFlat(a: Axis, xx: int)
    requires a.Valid()
  {
    forall v: Byte :: PixelOf(a, Flat(v), xx) == v
  }

  lemma FlatPixel(a: Axis, xx: int, v: Byte)
    requires a.Valid() && a.from > 0 && 0 <= xx < a.to
    ensures PixelOf(a, Flat(v), xx) == Clip8(Wrap32(HALF + v * WholeFixed(a, xx)))
  {
    hide Axis.Xmin, Axis.N, Axis.Fixed, Total, Accumulate, Clip8, Wrap32;
    FixedTotal(a, xx);
    var b, w, n := From(Flat(v), a.Xmin(xx)), a.FixedWeights(xx), a.N(xx);
    ProductsBetween(n, b, w, v, v);
    AccumulateIs(n, b, w);
  }

  lemma FlatLost(v: Byte, d: int)
    requires (v == 255 && 255 * d < -HALF) || (v == 254 && 254 * d >= HALF)
    ensures Clip8(HALF + v * (ONE + d)) != v
  {
  }

  /** A multiple of the weights' sum wraps as the multiple of the wrapped sum. */
  lemma WrapScales(v: int, x: int)
    ensures Wrap32(HALF + v * x) == Wrap32(HALF + v * Wrap32(x))
  {
    hide Wrap32;
    WrapIs(x);
    var k: int :| Wrap32(x) == x + k * 0x1_0000_0000;
    assert v * (x + k * 0x1_0000_0000) == v * x + v * k * 0x1_0000_0000;
    WrapShifts(HALF + v * x, v * k);
  }

  /** Lines of one value keep it exactly when the fixed-point weights, their sum taken in 32 bits, sum
      closely enough to 2^22. */
  lemma FlatKeptExactly(a: Axis, xx: int)
    requires a.Valid() && a.from > 0 && 0 <= xx < a.to
    ensures var d := Wrap32(WholeFixed(a, xx)) - ONE;
      KeepsFlat(a, xx) <==> -HALF <= 255 * d && 254 * d < HALF
  {
    hide WholeFixed, PixelOf, Clip8, Wrap32;
    var whole := Wrap32(WholeFixed(a, xx));
    var d := whole - ONE;
    WrapIs(WholeFixed(a, xx));
    if -HALF <= 255 * d && 254 * d < HALF {
      forall v: Byte
        ensures PixelOf(a, Flat(v), xx) == v
      {
        FlatPixel(a, xx, v);
        WrapScales(v, WholeFixed(a, xx));
        FlatClip(v, d);
        Fits(HALF + v * whole);
      }
    } else {
      var v := LostValue(d);
      FlatPixel(a, xx, v);
      WrapScales(v, WholeFixed(a, xx));
    }
  }

  /** A value lost where the weights' wrapped sum is too far from 2^22. */
  lemma LostValue(d: int) returns (v: Byte)
    requires -0x8000_0000 <= ONE + d < 0x8000_0000 && !(-HALF <= 255 * d && 254 * d < HALF)
    ensures Clip8(Wrap32(HALF + v * (ONE + d))) != v
  {
    if ONE + d < HALF || d >= ONE {
      v := 1;
    } else {
      v := if d < 0 then 255 else 254;
      FlatLost(v, d);
      Fits(HALF + v * (ONE + d));
    }
  }

  /** Where the table is small, every line of one value keeps it. */
  lemma FlatKept(a: Axis, xx: int)
    requires a.Valid() && a.from > 0 && 0 <= xx < a.to && Exact(a)
    ensures KeepsFlat(a, xx)
  {
    hide PixelOf, Balanced, Within;
    ExactIsBalanced(a, xx);
    forall v: Byte
      ensures PixelOf(a, Flat(v), xx) == v
    {
      assert Within(a, xx, Flat(v), v, v) by { FlatWithin(a, xx, v); }
      PixelBetween(a, Flat(v), xx, v, v);
    }
  }

  lemma FlatWithin(a: Axis, xx: int, v: Byte)
    requires a.Valid()
    ensures Within(a, xx, Flat(v), v, v)
  {
  }

  /** 2^25 places to 1. */
  const WIDE := Axis(0x200_0000, 1)

  lemma WideWindow()
    ensures WIDE.Support() == 33554432.0 && WIDE.Center(0) == 16777216.0
    ensures WIDE.Xmin(0) == 0 && WIDE.N(0) == 0x200_0000
  {
    assert WIDE.Scale() == 33554432.0;
    assert WIDE.Center(0) == 0.5 * 33554432.0;
  }

  lemma WideTaps(x: int)
    requires 0 <= x < 0x200_0000
    ensures 0.5 <= WIDE.Taps(0)(x) <= 1.0
  {
    hide Axis.Support, Axis.Center, Axis.Xmin, TapAt;
    WideWindow();
    WideTap(x);
  }

  /** Every weight is below half a unit of the fixed point and rounds to 0, so white comes out
      black. */
  lemma WhiteLost()
    ensures PixelOf(WIDE, Flat(255), 0) == 0
  {
    hide Sum, Total, Axis.Weight, Axis.Taps, Axis.N, Axis.Xmin, PixelOf, Rounded;
    var n := 0x200_0000;
    WideWindow();
    forall x | 0 <= x < n
      ensures 0.5 <= WIDE.Taps(0)(x) <= 1.0
    {
      WideTaps(x);
    }
    AtLeastHalves(n, WIDE.Taps(0));
    forall x | 0 <= x < n
      ensures WIDE.FixedWeights(0)(x) == 0
    {
      RoundsToZero(WIDE.Taps(0)(x), WIDE.Whole(0));
      WeightIs(WIDE, x);
    }
    TotalZero(n, WIDE.FixedWeights(0));
    FlatPixel(WIDE, 0, 255);
    assert WholeFixed(WIDE, 0) == 0;
  }

  lemma WeightIs(a: Axis, x: int)
    requires a.Valid() && a.Whole(0) != 0.0
    ensures a.Weight(0, x) == a.Taps(0)(x) / a.Whole(0)
  {
    hide Axis.Tap, Axis.Whole;
  }

  lemma WideTap(x: int)
    requires 0 <= x < 0x200_0000
    ensures 0.5 <= TapAt(x, 16777216.0, 1.0 / 33554432.0) <= 1.0
  {
    var d := x as real - 16777216.0 + 0.5;
    assert d * (1.0 / 33554432.0) == d / 33554432.0;
  }

  lemma {:induction false} AtLeastHalves(n: int, f: Vec)
    requires n >= 0 && forall x :: 0 <= x < n ==> f(x) >= 0.5
    ensures Sum(0, n, f) >= 0.5 * n as real
    decreases n
  {
    if n > 0 {
      AtLeastHalves(n - 1, f);
    }
  }

  lemma RoundsToZero(t: real, whole: real)
    requires 0.0 <= t <= 1.0 && whole >= 16777216.0
    ensures t / whole >= 0.0 && Rounded(t / whole) == 0
  {
    var w := t / whole;
    assert w * whole == t;
    assert w >= 0.0;
    NotNegative(w, whole - 16777216.0);
    assert w * (whole - 16777216.0) == w * whole - w * 16777216.0;
  }

  lemma {:induction false} TotalZero(n: int, f: int -> int)
    requires forall x :: 0 <= x < n ==> f(x) == 0
    ensures Total(n, f) == 0
    decreases n
  {
    if n > 0 {
      TotalZero(n - 1, f);
    }
  }

  // ----- the table -----

  datatype Coeffs = Coeffs(ksize: nat, bounds: seq<(int, int)>, weights: seq<int>)

  /** Entry j of the table: the weight of a window's tap, 0 past the window. */
  function TableEntry(a: Axis, j: nat): int
    requires a.Valid()
  {
    var k := a.KSize();
    if k <= 0 then 0 else if j % k < a.N(j / k) then a.Fixed(j / k, j % k) else 0
  }

  ghost predicate IsTable(c: Coeffs, a: Axis)
    requires a.Valid()
  {
    && c.ksize == a.KSize() && |c.bounds| == a.to && |c.weights| == a.to * c.ksize
    && (forall xx :: 0 <= xx < a.to ==> c.bounds[xx] == (a.Xmin(xx), a.N(xx)))
    && (forall j :: 0 <= j < |c.weights| ==> c.weights[j] == TableEntry(a, j))
  }

  lemma Decode(row: nat, width: nat, x: nat)
    requires x < width
    ensures (row * width + x) / width == row && (row * width + x) % width == x
  {
    DivUnique(row * width + x, width, row, x);
  }

  lemma RowInTable(row: nat, rows: nat, width: nat)
    requires row < rows
    ensures row * width + width <= rows * width
  {
    assert (row + 1) * width <= rows * width;
  }

  /** The window's weights as they stand in the table. */
  lemma TableRow(c: Coeffs, a: Axis, xx: nat, x: nat)
    requires a.Valid() && IsTable(c, a) && xx < a.to && x < a.N(xx)
    ensures 0 <= xx * c.ksize + x < |c.weights| && c.weights[xx * c.ksize + x] == a.Fixed(xx, x)
  {
    hide Axis.Fixed, Axis.N, Axis.KSize;
    WindowFits(a, xx);
    Decode(xx, c.ksize, x);
    RowInTable(xx, a.to, c.ksize);
  }

  lemma KSizePositive(a: Axis)
    requires a.Valid()
    ensures a.KSize() >= 3
  {
    CeilBound(a.Support());
  }

  /** `coeffs`: the windows and their weights, the taps buffer used again for each window. */
  method MakeTable(a: Axis) returns (c: Coeffs)
    requires a.Valid()
    ensures IsTable(c, a)
  {
    hide Sum, Axis.Support, Axis.Scale, Axis.KSize, Axis.Xmin, Axis.N, Axis.Tap, Rounded, TableEntry, FilledTo;
    KSizePositive(a);
    var ksize := a.KSize();
    var bounds: seq<(int, int)> := [];
    var weights := new int[a.to * ksize](_ => 0);
    var taps := new real[ksize](_ => 0.0);
    NothingFilled(weights[..], a);
    for xx := 0 to a.to
      invariant |bounds| == xx && forall i :: 0 <= i < xx ==> bounds[i] == (a.Xmin(i), a.N(i))
      invariant FilledTo(weights[..], a, xx * ksize)
    {
      WindowFits(a, xx);
      RowInTable(xx, a.to, ksize);
      var xmin, n := a.Xmin(xx), a.N(xx);
      var ww := FillTaps(a, xx, taps);
      FillWeights(a, xx, taps, ww, weights);
      assert (xx + 1) * ksize == xx * ksize + ksize;
      bounds := bounds + [(xmin, n)];
    }
    WholeTable(weights[..], a);
    c := Coeffs(ksize, bounds, weights[..]);
  }

  lemma NothingFilled(w: seq<int>, a: Axis)
    requires a.Valid() && forall j :: 0 <= j < |w| ==> w[j] == 0
    ensures FilledTo(w, a, 0)
  {
  }

  lemma WholeTable(w: seq<int>, a: Axis)
    requires a.Valid() && FilledTo(w, a, |w|)
    ensures forall j :: 0 <= j < |w| ==> w[j] == TableEntry(a, j)
  {
  }

  /** The window's taps and their sum. */
  method FillTaps(a: Axis, xx: nat, taps: array<real>) returns (ww: real)
    requires a.Valid() && xx < a.to && 0 <= a.N(xx) <= taps.Length
    modifies taps
    ensures ww == a.Whole(xx)
    ensures forall x :: 0 <= x < a.N(xx) ==> taps[x] == a.Tap(xx, x)
  {
    hide Axis.Support, Axis.Scale, Axis.Xmin, Axis.N, Axis.Center, TapAt;
    SupportPositive(a);
    var n, center, ss := a.N(xx), a.Center(xx), 1.0 / a.Support();
    ww := 0.0;
    for x := 0 to n
      invariant ww == Sum(0, x, a.Taps(xx))
      invariant forall i :: 0 <= i < x ==> taps[i] == a.Tap(xx, i)
    {
      taps[x] := TapAt(x + a.Xmin(xx), center, ss);
      ww := ww + taps[x];
    }
  }

  lemma SupportPositive(a: Axis)
    requires a.Valid()
    ensures a.Support() >= 1.0
  {
  }

  /** The table holds its entries before place m, and 0 from there on. */
  ghost predicate FilledTo(w: seq<int>, a: Axis, m: int)
    requires a.Valid()
  {
    forall j :: 0 <= j < |w| ==> w[j] == if j < m then TableEntry(a, j) else 0
  }

  lemma FilledOneMore(w: seq<int>, a: Axis, m: nat)
    requires a.Valid() && m < |w| && FilledTo(w, a, m)
    ensures FilledTo(w[m := TableEntry(a, m)], a, m + 1)
  {
    hide TableEntry;
  }

  /** Past its window a row of the table is 0. */
  lemma FilledRow(w: seq<int>, a: Axis, xx: nat)
    requires a.Valid() && 0 <= a.N(xx) < a.KSize() && FilledTo(w, a, xx * a.KSize() + a.N(xx))
    ensures FilledTo(w, a, xx * a.KSize() + a.KSize())
  {
    hide TableEntry, Axis.N, Axis.KSize, Axis.Fixed;
    var at := xx * a.KSize();
    forall j | at + a.N(xx) <= j < at + a.KSize()
      ensures TableEntry(a, j) == 0
    {
      EntryIs(a, xx, j - at);
    }
  }

  /** The window's row of the table; nothing else of the table changes. */
  method FillWeights(a: Axis, xx: nat, taps: array<real>, ww: real, weights: array<int>)
    requires a.Valid() && 0 <= a.N(xx) < a.KSize() && a.N(xx) <= taps.Length
    requires xx * a.KSize() + a.KSize() <= weights.Length
    requires ww == a.Whole(xx) && forall x :: 0 <= x < a.N(xx) ==> taps[x] == a.Tap(xx, x)
    requires FilledTo(weights[..], a, xx * a.KSize())
    modifies weights
    ensures FilledTo(weights[..], a, xx * a.KSize() + a.KSize())
  {
    hide Axis.Support, Axis.Scale, Axis.Xmin, Axis.N, Axis.KSize, Axis.Tap, Axis.Whole, TableEntry, Trunc, FilledTo;
    var n, at := a.N(xx), xx * a.KSize();
    for x := 0 to n
      invariant FilledTo(weights[..], a, at + x)
    {
      var w := if ww != 0.0 then taps[x] / ww else taps[x];
      var fixed := w * ONE as real;
      EntryIs(a, xx, x);
      FilledOneMore(weights[..], a, at + x);
      ghost var was := weights[..];
      weights[at + x] := if w < 0.0 then Trunc(-0.5 + fixed) else Trunc(0.5 + fixed);
      assert weights[..] == was[at + x := TableEntry(a, at + x)];
    }
    FilledRow(weights[..], a, xx);
  }

  lemma EntryIs(a: Axis, xx: nat, x: nat)
    requires a.Valid() && x < a.KSize()
    ensures TableEntry(a, xx * a.KSize() + x) == if x < a.N(xx) then a.Fixed(xx, x) else 0
  {
    hide Axis.N, Axis.Fixed, Axis.KSize;
    Decode(xx, a.KSize(), x);
  }

  // ----- the passes -----

  /** An interleaved RGB image, row by row. */
  datatype Rgb8 = Rgb8(width: nat, height: nat, data: seq<Byte>) {

    predicate Valid() { |data| == width * height * 3 }

    /** Channel ch of a pixel, 0 outside the image. */
    function At(y: int, x: int, ch: int): Byte {
      var at := (y * width + x) * 3 + ch;
      if 0 <= at < |data| then data[at] else 0
    }

    function Across(y: int, ch: int): int -> Byte { x => At(y, x, ch) }

    function Down(x: int, ch: int): int -> Byte { y => At(y, x, ch) }
  }

  lemma InImage(y: nat, x: nat, ch: nat, width: nat, height: nat)
    requires y < height && x < width && ch < 3
    ensures 0 <= (y * width + x) * 3 + ch < width * height * 3
  {
    RowInTable(y, height, width);
  }

  lemma DecodeByte(y: nat, x: nat, ch: nat, width: nat)
    requires x < width && ch < 3
    ensures var j := (y * width + x) * 3 + ch; j % 3 == ch && (j / 3) % width == x && (j / 3) / width == y
  {
    Decode(y * width + x, 3, ch);
    Decode(y, width, x);
  }

  /** Byte j of a pass over the columns. */
  function AcrossByte(src: Rgb8, width: nat, j: nat): Byte
    requires width > 0
  {
    PixelOf(Axis(src.width, width), src.Across(j / 3 / width, j % 3), (j / 3) % width)
  }

  /** Byte j of a pass over the rows. */
  function DownByte(src: Rgb8, height: nat, j: nat): Byte
    requires height > 0 && src.width > 0
  {
    PixelOf(Axis(src.height, height), src.Down((j / 3) % src.width, j % 3), j / 3 / src.width)
  }

  /** One accumulator: the taps of a window in turn. */
  method Convolve(a: Axis, c: Coeffs, line: int -> Byte, xx: nat) returns (b: Byte)
    requires a.Valid() && IsTable(c, a) && xx < a.to
    ensures b == PixelOf(a, line, xx)
  {
    hide Axis.Xmin, Axis.N, Axis.Fixed, Wrap32, Clip8, IsTable, Axis.KSize;
    BoundsAre(c, a, xx);
    var (xmin, n) := c.bounds[xx];
    WindowFits(a, xx);
    var ss := HALF;
    for x := 0 to n
      invariant ss == Accumulate(x, From(line, xmin), a.FixedWeights(xx))
    {
      TableRow(c, a, xx, x);
      ss := Wrap32(ss + Wrap32(line(xmin + x) * c.weights[xx * c.ksize + x]));
    }
    b := Clip8(ss);
  }

  lemma BoundsAre(c: Coeffs, a: Axis, xx: nat)
    requires a.Valid() && IsTable(c, a) && xx < a.to
    ensures |c.bounds| == a.to && c.bounds[xx] == (a.Xmin(xx), a.N(xx))
  {
  }

  /** The horizontal pass. */
  method Horizontal(src: Rgb8, width: nat) returns (out: Rgb8)
    requires src.Valid() && width > 0
    ensures out.Valid() && out.width == width && out.height == src.height
    ensures forall j :: 0 <= j < |out.data| ==> out.data[j] == AcrossByte(src, width, j)
  {
    hide PixelOf, AcrossByte, IsTable;
    var a := Axis(src.width, width);
    var c := MakeTable(a);
    var data := new Byte[width * src.height * 3](_ => 0);
    for y := 0 to src.height
      invariant forall j :: 0 <= j < data.Length && j < y * width * 3 ==> data[j] == AcrossByte(src, width, j)
    {
      for xx := 0 to width
        invariant forall j :: 0 <= j < data.Length && j < (y * width + xx) * 3 ==> data[j] == AcrossByte(src, width, j)
      {
        for ch := 0 to 3
          invariant forall j :: 0 <= j < data.Length && j < (y * width + xx) * 3 + ch ==>
            data[j] == AcrossByte(src, width, j)
        {
          InImage(y, xx, ch, width, src.height);
          AcrossByteAt(src, width, y, xx, ch);
          var b := Convolve(a, c, src.Across(y, ch), xx);
          data[(y * width + xx) * 3 + ch] := b;
        }
      }
      assert (y + 1) * width == y * width + width;
    }
    assert src.height * width * 3 == width * src.height * 3;
    out := Rgb8(width, src.height, data[..]);
  }

  lemma AcrossByteAt(src: Rgb8, width: nat, y: nat, x: nat, ch: nat)
    requires x < width && ch < 3
    ensures AcrossByte(src, width, (y * width + x) * 3 + ch) == PixelOf(Axis(src.width, width), src.Across(y, ch), x)
  {
    hide PixelOf;
    DecodeByte(y, x, ch, width);
  }

  lemma DownByteAt(src: Rgb8, height: nat, y: nat, x: nat, ch: nat)
    requires x < src.width && ch < 3 && height > 0
    ensures DownByte(src, height, (y * src.width + x) * 3 + ch) == PixelOf(Axis(src.height, height), src.Down(x, ch), y)
  {
    hide PixelOf;
    DecodeByte(y, x, ch, src.width);
  }

  /** The vertical pass. */
  method Vertical(src: Rgb8, height: nat) returns (out: Rgb8)
    requires src.Valid() && src.width > 0 && height > 0
    ensures out.Valid() && out.width == src.width && out.height == height
    ensures forall j :: 0 <= j < |out.data| ==> out.data[j] == DownByte(src, height, j)
  {
    hide PixelOf, DownByte, IsTable;
    var a, width := Axis(src.height, height), src.width;
    var c := MakeTable(a);
    var data := new Byte[width * height * 3](_ => 0);
    for yy := 0 to height
      invariant forall j :: 0 <= j < data.Length && j < yy * width * 3 ==> data[j] == DownByte(src, height, j)
    {
      for xx := 0 to width
        invariant forall j :: 0 <= j < data.Length && j < (yy * width + xx) * 3 ==> data[j] == DownByte(src, height, j)
      {
        for ch := 0 to 3
          invariant forall j :: 0 <= j < data.Length && j < (yy * width + xx) * 3 + ch ==>
            data[j] == DownByte(src, height, j)
        {
          InImage(yy, xx, ch, width, height);
          DownByteAt(src, height, yy, xx, ch);
          var b := Convolve(a, c, src.Down(xx, ch), yy);
          data[(yy * width + xx) * 3 + ch] := b;
        }
      }
      assert (yy + 1) * width == yy * width + width;
    }
    assert height * width * 3 == width * height * 3;
    out := Rgb8(width, height, data[..]);
  }

  // ----- the resize -----

  /** A pixel after the pass over the columns, which an unchanged width skips. */
  function MidAt(src: Rgb8, width: nat, y: int, x: int, ch: int): Byte
    requires width > 0
  {
    if width == src.width then src.At(y, x, ch) else PixelOf(Axis(src.width, width), src.Across(y, ch), x)
  }

  /** A column of the image between the passes. */
  function MidDown(src: Rgb8, width: nat, x: int, ch: int): int -> Byte
    requires width > 0
  {
    y => if 0 <= y < src.height then MidAt(src, width, y, x, ch) else 0
  }

  /** A pixel of the resized image. */
  function ResizedAt(src: Rgb8, width: nat, height: nat, y: int, x: int, ch: int): Byte
    requires width > 0 && height > 0
  {
    if height == src.height then MidAt(src, width, y, x, ch)
    else PixelOf(Axis(src.height, height), MidDown(src, width, x, ch), y)
  }

  /** `resize_bilinear`: the columns, then the rows, each pass skipped where its side is kept. */
  method Resize(src: Rgb8, width: nat, height: nat) returns (out: Rgb8)
    requires src.Valid() && width > 0 && height > 0
    ensures out.Valid() && out.width == width && out.height == height
    ensures forall y, x, ch :: 0 <= y < height && 0 <= x < width && 0 <= ch < 3 ==>
      out.At(y, x, ch) == ResizedAt(src, width, height, y, x, ch)
    ensures width == src.width && height == src.height ==> out == src
  {
    hide PixelOf, AcrossByte, DownByte;
    var horiz;
    if width != src.width {
      horiz := Horizontal(src, width);
    } else {
      horiz := Rgb8(src.width, src.height, src.data);
    }
    ghost var mid := horiz;
    MidIs(src, width, mid);
    if height == horiz.height {
      return horiz;
    }
    out := Vertical(horiz, height);
    forall y, x, ch | 0 <= y < height && 0 <= x < width && 0 <= ch < 3
      ensures out.At(y, x, ch) == ResizedAt(src, width, height, y, x, ch)
    {
      InImage(y, x, ch, width, height);
      DownByteAt(mid, height, y, x, ch);
      SameLine(Axis(src.height, height), mid.Down(x, ch), MidDown(src, width, x, ch), y);
    }
  }

  lemma MidIs(src: Rgb8, width: nat, mid: Rgb8)
    requires src.Valid() && width > 0 && mid.Valid() && mid.width == width && mid.height == src.height
    requires if width == src.width then mid == src
             else forall j :: 0 <= j < |mid.data| ==> mid.data[j] == AcrossByte(src, width, j)
    ensures forall y, x, ch :: 0 <= y < src.height && 0 <= x < width && 0 <= ch < 3 ==>
      mid.At(y, x, ch) == MidAt(src, width, y, x, ch)
  {
    hide PixelOf, AcrossByte;
    forall y, x, ch | 0 <= y < src.height && 0 <= x < width && 0 <= ch < 3
      ensures mid.At(y, x, ch) == MidAt(src, width, y, x, ch)
    {
      InImage(y, x, ch, width, src.height);
      AcrossByteAt(src, width, y, x, ch);
    }
  }

  /** A pixel reads its line inside the side alone. */
  lemma SameLine(a: Axis, line: int -> Byte, other: int -> Byte, xx: int)
    requires a.Valid() && 0 <= xx < a.to
    requires forall p :: 0 <= p < a.from ==> line(p) == other(p)
    ensures PixelOf(a, line, xx) == PixelOf(a, other, xx)
  {
    hide Clip8, Axis.N, Axis.Fixed;
    WindowInside(a, xx);
    SameBytes(a.N(xx), From(line, a.Xmin(xx)), From(other, a.Xmin(xx)), a.FixedWeights(xx));
  }

  lemma WindowInside(a: Axis, xx: int)
    requires a.Valid() && 0 <= xx < a.to
    ensures 0 <= a.Xmin(xx) && a.Xmin(xx) + a.N(xx) <= a.from
  {
    hide Axis.Center, Axis.Support;
  }

  lemma {:induction false} SameBytes(n: int, b: int -> int, b': int -> int, w: int -> int)
    requires forall x :: 0 <= x < n ==> b(x) == b'(x)
    ensures Accumulate(n, b, w) == Accumulate(n, b', w)
    decreases n
  {
    hide Wrap32;
    if n > 0 {
      SameBytes(n - 1, b, b', w);
    }
  }

  /** The weights of a place of the side are balanced, or its pass is skipped. */
  predicate SideExact(from: nat, to: nat, xx: int)
    requires to > 0
  {
    from == to || Balanced(Axis(from, to), xx)
  }

  /** Whether place p of a side is read for place q of the resized one. */
  predicate Reads(from: nat, to: nat, q: int, p: int)
    requires to > 0
  {
    if from == to then p == q else Axis(from, to).Xmin(q) <= p < Axis(from, to).Xmax(q)
  }

  /** Through both passes every byte lies between the bounds of the bytes it is made of. */
  lemma ResizeBetween(src: Rgb8, width: nat, height: nat, y: int, x: int, ch: int, lo: Byte, hi: Byte)
    requires src.Valid() && width > 0 && height > 0 && src.width > 0 && src.height > 0 && lo <= hi
    requires 0 <= y < height && 0 <= x < width && 0 <= ch < 3
    requires SideExact(src.width, width, x) && SideExact(src.height, height, y)
    requires forall r, c :: 0 <= r < src.height && Reads(src.height, height, y, r) && Reads(src.width, width, x, c) ==>
      lo <= src.At(r, c, ch) <= hi
    ensures lo <= ResizedAt(src, width, height, y, x, ch) <= hi
  {
    hide PixelOf, Balanced, Axis.Xmin, Axis.Xmax, Rgb8.At;
    forall r | 0 <= r < src.height && Reads(src.height, height, y, r)
      ensures lo <= MidAt(src, width, r, x, ch) <= hi
    {
      if width != src.width {
        PixelBetween(Axis(src.width, width), src.Across(r, ch), x, lo, hi);
      }
    }
    if height != src.height {
      RowsInside(Axis(src.height, height), y);
      PixelBetween(Axis(src.height, height), MidDown(src, width, x, ch), y, lo, hi);
    }
  }

  lemma RowsInside(a: Axis, xx: int)
    requires a.Valid() && a.from > 0 && 0 <= xx < a.to
    ensures 0 <= a.Xmin(xx) && a.Xmax(xx) <= a.from
  {
    WindowIsSound(a, xx);
  }
}
