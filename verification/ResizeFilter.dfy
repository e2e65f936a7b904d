/** What the resize's windows and weights amount to: every place of a resized side is the side averaged
    by a triangle about its own centre, which on a side that does not shrink is the line through its two
    neighbours. */
module ResizeFilter {
  import opened Sums
  import opened Analysis
  import opened Resize

  /** The place q of the resized side, seen on the side: half a place in from where its own begins. */
  function CentreOf(from: nat, to: nat, q: int): real
    requires to > 0
  {
    (2 * q + 1) as real * from as real / (2.0 * to as real)
  }

  /** How far the triangle reaches: one place, or as many as are made into one. */
  function Reach(from: nat, to: nat): real
    requires to > 0
  {
    if from <= to then 1.0 else from as real / to as real
  }

  function Distance(from: nat, to: nat, q: int, p: int): real
    requires to > 0
  {
    Size(p as real + 0.5 - CentreOf(from, to, q))
  }

  function Size(y: real): real { if y < 0.0 then -y else y }

  /** From 1 at no distance linearly to 0 at s. */
  function Falling(d: real, s: real): real
    requires s > 0.0
  {
    if d < s then (s - d) / s else 0.0
  }

  lemma ReachPositive(from: nat, to: nat)
    requires to > 0
    ensures Reach(from, to) > 0.0
  {
  }

  /** Full height at the centre, falling linearly to 0 at the reach. */
  function Triangle(from: nat, to: nat, q: int): Vec
    requires to > 0
  {
    ReachPositive(from, to);
    p => Falling(Distance(from, to, q, p), Reach(from, to))
  }

  function TriangleTerms(from: nat, to: nat, q: int, line: int -> Byte): Vec
    requires to > 0
  {
    p => Triangle(from, to, q)(p) * line(p) as real
  }

  // ----- the taps are the triangle -----

  lemma CentreIs(a: Axis, xx: int)
    requires a.Valid()
    ensures a.Center(xx) == CentreOf(a.from, a.to, xx) && a.Support() == Reach(a.from, a.to) >= 1.0
  {
    var f, t := a.from as real, a.to as real;
    assert (xx as real + 0.5) * (f / t) == (2.0 * xx as real + 1.0) * f / (2.0 * t) by {
      assert f / t * t == f;
      CentreQuotient(xx as real, f, t);
    }
    if a.from <= a.to {
      QuotientSmall(f, t);
    } else {
      QuotientLarge(f, t);
    }
  }

  lemma CentreQuotient(x: real, f: real, t: real)
    requires t > 0.0
    ensures (x + 0.5) * (f / t) == (2.0 * x + 1.0) * f / (2.0 * t)
  {
    var s := f / t;
    assert f == s * t;
    assert (2.0 * x + 1.0) * f == ((x + 0.5) * s) * (2.0 * t);
    QuotientIs((2.0 * x + 1.0) * f, 2.0 * t, (x + 0.5) * s);
  }

  lemma QuotientIs(n: real, d: real, q: real)
    requires d > 0.0 && n == q * d
    ensures n / d == q
  {
  }

  lemma QuotientSmall(f: real, t: real)
    requires 0.0 <= f <= t && t > 0.0
    ensures f / t <= 1.0
  {
  }

  lemma QuotientLarge(f: real, t: real)
    requires f > t > 0.0
    ensures f / t > 1.0
  {
  }

  /** A filter stretched to the reach s: 1 - |y| / s below it. */
  lemma StretchedFilter(y: real, s: real, i: real)
    requires s >= 1.0 && i == 1.0 / s
    ensures Bilinear(y * i) == Falling(Size(y), s)
  {
    var d := Size(y);
    assert i * s == 1.0 && i > 0.0;
    var x := y * i;
    assert x * s == y;
    var ax := if x < 0.0 then -x else x;
    SameSign(x, s, y);
    assert ax * s == d;
    Below(ax, s, d);
    if d < s {
      assert (1.0 - ax) * s == s - d;
      QuotientIs(s - d, s, 1.0 - ax);
    }
  }

  lemma SameSign(x: real, s: real, y: real)
    requires s > 0.0 && x * s == y
    ensures x < 0.0 <==> y < 0.0
  {
  }

  lemma Below(a: real, s: real, d: real)
    requires s > 0.0 && a * s == d
    ensures a < 1.0 <==> d < s
  {
  }

  lemma TapAtIs(p: int, c: real, ss: real, y: real)
    requires y == p as real + 0.5 - c
    ensures TapAt(p, c, ss) == Bilinear(y * ss)
  {
    assert p as real - c + 0.5 == y;
  }

  lemma TapFalls(p: int, c: real, s: real)
    requires s >= 1.0
    ensures TapAt(p, c, 1.0 / s) == Falling(Size(p as real + 0.5 - c), s)
  {
    hide TapAt, Bilinear, Falling, Size;
    var y, i := p as real + 0.5 - c, 1.0 / s;
    TapAtIs(p, c, i, y);
    StretchedFilter(y, s, i);
  }

  lemma TapsAre(a: Axis, xx: int, x: int, p: int)
    requires a.Valid() && p == x + a.Xmin(xx)
    ensures a.Taps(xx)(x) == TapAt(p, a.Center(xx), 1.0 / a.Support())
  {
    hide TapAt, Axis.Xmin, Axis.Center, Axis.Support;
  }

  lemma TriangleIs(from: nat, to: nat, q: int, p: int, c: real, s: real)
    requires to > 0 && c == CentreOf(from, to, q) && s == Reach(from, to)
    ensures s > 0.0 && Triangle(from, to, q)(p) == Falling(Size(p as real + 0.5 - c), s)
  {
    hide CentreOf, Reach, Falling, Size;
    ReachPositive(from, to);
  }

  lemma TapIsTriangle(a: Axis, xx: int, x: int)
    requires a.Valid()
    ensures a.Taps(xx)(x) == Triangle(a.from, a.to, xx)(a.Xmin(xx) + x)
  {
    hide TapAt, Bilinear, Falling, Size, Triangle, Axis.Taps, Axis.Xmin, Axis.Center, Axis.Support, CentreOf, Reach;
    CentreIs(a, xx);
    var p, c, s := a.Xmin(xx) + x, a.Center(xx), a.Support();
    TapsAre(a, xx, x, p);
    TapFalls(p, c, s);
    TriangleIs(a.from, a.to, xx, p, c, s);
  }

  /** Outside the window the triangle is 0: the window leaves nothing out. */
  lemma OutsideIsZero(a: Axis, xx: int, p: int)
    requires a.Valid() && 0 <= p < a.from && !(a.Xmin(xx) <= p < a.Xmax(xx))
    ensures Triangle(a.from, a.to, xx)(p) == 0.0
  {
    hide Axis.Center, Axis.Support, CentreOf, Reach;
    CentreIs(a, xx);
    FloorBounds(a.Center(xx) + a.Support() + 0.5);
    FloorBounds(a.Center(xx) - a.Support() + 0.5);
  }

  /** A sum over the window is the sum over the side of what is 0 outside it. */
  lemma WholeSide(a: Axis, xx: int, f: Vec, g: Vec)
    requires a.Valid() && a.from > 0 && 0 <= xx < a.to
    requires forall x :: 0 <= x < a.N(xx) ==> f(x) == g(x + a.Xmin(xx))
    requires forall p :: 0 <= p < a.from && !(a.Xmin(xx) <= p < a.Xmax(xx)) ==> g(p) == 0.0
    ensures Sum(0, a.N(xx), f) == Sum(0, a.from, g)
  {
    hide Sum, Axis.Xmin, Axis.Xmax;
    WindowIsSound(a, xx);
    SumShift(0, a.N(xx), a.Xmin(xx), g, f);
    SumSplit(0, a.Xmin(xx), a.from, g);
    SumSplit(a.Xmin(xx), a.Xmax(xx), a.from, g);
    SumZero(0, a.Xmin(xx), g);
    SumZero(a.Xmax(xx), a.from, g);
  }

  /** A place's blend is the whole side averaged by the triangle about the place's centre. */
  lemma BlendIsTriangle(a: Axis, line: int -> Byte, xx: int)
    requires a.Valid() && a.from > 0 && 0 <= xx < a.to
    ensures Sum(0, a.from, Triangle(a.from, a.to, xx)) > 0.0
    ensures Blend(a, line, xx)
         == Sum(0, a.from, TriangleTerms(a.from, a.to, xx, line)) / Sum(0, a.from, Triangle(a.from, a.to, xx))
  {
    hide Sum, Triangle, TriangleTerms, Axis.Xmin, Axis.Xmax, Axis.N, Axis.Taps, Axis.Whole, Tapped, Blend;
    WindowIsSound(a, xx);
    var t, terms := Triangle(a.from, a.to, xx), TriangleTerms(a.from, a.to, xx, line);
    TermsAreTriangle(a, line, xx);
    forall p | 0 <= p < a.from && !(a.Xmin(xx) <= p < a.Xmax(xx))
      ensures t(p) == 0.0 && terms(p) == 0.0
    {
      OutsideIsZero(a, xx, p);
      TermIs(a, line, xx, p);
    }
    WholeSide(a, xx, a.Taps(xx), t);
    WholeSide(a, xx, Tapped(a, line, xx), terms);
    BlendOfTapped(a, line, xx);
    WholeIs(a, xx);
    Ratio(Sum(0, a.from, terms), a.Whole(xx));
  }

  function Tapped(a: Axis, line: int -> Byte, xx: int): Vec
    requires a.Valid()
  {
    x => a.Taps(xx)(x) * line(a.Xmin(xx) + x) as real
  }

  lemma TermIs(a: Axis, line: int -> Byte, xx: int, p: int)
    requires a.Valid()
    ensures TriangleTerms(a.from, a.to, xx, line)(p) == Triangle(a.from, a.to, xx)(p) * line(p) as real
  {
    hide Triangle;
  }

  lemma TermsAreTriangle(a: Axis, line: int -> Byte, xx: int)
    requires a.Valid()
    ensures forall x :: a.Taps(xx)(x) == Triangle(a.from, a.to, xx)(x + a.Xmin(xx))
    ensures forall x :: Tapped(a, line, xx)(x) == TriangleTerms(a.from, a.to, xx, line)(x + a.Xmin(xx))
  {
    hide Triangle, TriangleTerms, Axis.Xmin, Axis.Taps;
    forall x: int
      ensures a.Taps(xx)(x) == Triangle(a.from, a.to, xx)(x + a.Xmin(xx))
      ensures Tapped(a, line, xx)(x) == TriangleTerms(a.from, a.to, xx, line)(x + a.Xmin(xx))
    {
      TapIsTriangle(a, xx, x);
      assert a.Xmin(xx) + x == x + a.Xmin(xx);
      TermIs(a, line, xx, x + a.Xmin(xx));
    }
  }

  lemma BlendOfTapped(a: Axis, line: int -> Byte, xx: int)
    requires a.Valid() && a.Whole(xx) > 0.0
    ensures Blend(a, line, xx) == (1.0 / a.Whole(xx)) * Sum(0, a.N(xx), Tapped(a, line, xx))
  {
    hide Sum, Axis.N, Axis.Xmin, Axis.Taps, Axis.Whole, Axis.Weight;
    forall x: int
      ensures BlendTerms(a, line, xx)(x) == (1.0 / a.Whole(xx)) * Tapped(a, line, xx)(x)
    {
      WeightOf(a, xx, x);
      ThreeFactors(1.0 / a.Whole(xx), a.Taps(xx)(x), line(a.Xmin(xx) + x) as real);
    }
    SumScale(0, a.N(xx), 1.0 / a.Whole(xx), Tapped(a, line, xx), BlendTerms(a, line, xx));
  }

  lemma WholeIs(a: Axis, xx: int)
    requires a.Valid()
    ensures a.Whole(xx) == Sum(0, a.N(xx), a.Taps(xx))
  {
  }

  lemma WeightOf(a: Axis, xx: int, x: int)
    requires a.Valid() && a.Whole(xx) > 0.0
    ensures a.Weight(xx, x) == (1.0 / a.Whole(xx)) * a.Taps(xx)(x)
  {
    hide Axis.Tap, Axis.Whole;
    Ratio(a.Tap(xx, x), a.Whole(xx));
  }

  // ----- a side that does not shrink -----

  /** The nearest place of the side. */
  function Kept(from: nat, p: int): int { if p < 0 then 0 else if p >= from then from - 1 else p }

  /** The line through the places i and i + 1, a fraction f of the way. */
  function Between(from: nat, line: int -> Byte, i: int, f: real): real {
    (1.0 - f) * line(Kept(from, i)) as real + f * line(Kept(from, i + 1)) as real
  }

  /** The triangle of reach 1 about i + f + 1/2: 1 - f at i, f at i + 1 and 0 elsewhere. */
  lemma TriangleOfOne(from: nat, to: nat, q: int, i: int, f: real, p: int)
    requires 0 < to && from <= to && 0.0 <= f < 1.0 && CentreOf(from, to, q) == i as real + f + 0.5
    ensures Triangle(from, to, q)(p) == if p == i then 1.0 - f else if p == i + 1 then f else 0.0
  {
    hide CentreOf;
    if p > i + 1 {
      assert p as real >= i as real + 2.0;
    } else if p < i {
      assert p as real <= i as real - 1.0;
    }
  }

  /** A sum with two terms that are not zero. */
  lemma SumOfTwo(n: nat, i: int, f: Vec)
    requires 0 <= i && i + 1 < n && forall p :: 0 <= p < n && p != i && p != i + 1 ==> f(p) == 0.0
    ensures Sum(0, n, f) == f(i) + f(i + 1)
  {
    hide Sum;
    SumSplit(0, i + 1, n, f);
    SumOnly(0, i + 1, i, f);
    SumOnly(i + 1, n, i + 1, f);
  }

  /** Where a side does not shrink the blend is the line through the two places about the centre, the side's
      ends continued. */
  lemma BlendIsBilinear(a: Axis, line: int -> Byte, xx: int, i: int, f: real)
    requires 0 < a.from <= a.to && 0 <= xx < a.to && 0.0 <= f < 1.0
    requires CentreOf(a.from, a.to, xx) - 0.5 == i as real + f
    ensures Blend(a, line, xx) == Between(a.from, line, i, f)
  {
    hide Sum, CentreOf, Triangle, TriangleTerms, Blend, Between;
    var n, t, terms := a.from, Triangle(a.from, a.to, xx), TriangleTerms(a.from, a.to, xx, line);
    BlendIsTriangle(a, line, xx);
    CentreInSide(a, xx);
    forall p: int
      ensures t(p) == if p == i then 1.0 - f else if p == i + 1 then f else 0.0
      ensures terms(p) == t(p) * line(p) as real
    {
      TriangleOfOne(a.from, a.to, xx, i, f, p);
      TermIs(a, line, xx, p);
    }
    assert -1 <= i < n;
    if i == -1 {
      OneTerm(n, 0, t, terms, line);
      BetweenEnds(n, line, i, f, 0);
    } else if i == n - 1 {
      OneTerm(n, i, t, terms, line);
      BetweenEnds(n, line, i, f, i);
    } else {
      TwoTerms(n, i, f, t, terms, line);
    }
  }

  lemma BetweenEnds(n: nat, line: int -> Byte, i: int, f: real, k: int)
    requires 0 < n && Kept(n, i) == Kept(n, i + 1) == k
    ensures Between(n, line, i, f) == line(k) as real
  {
  }

  lemma TwoTerms(n: nat, i: int, f: real, t: Vec, terms: Vec, line: int -> Byte)
    requires 0 <= i && i + 1 < n
    requires forall p :: t(p) == if p == i then 1.0 - f else if p == i + 1 then f else 0.0
    requires forall p :: terms(p) == t(p) * line(p) as real
    ensures Sum(0, n, t) == 1.0 && Sum(0, n, terms) == Between(n, line, i, f)
  {
    hide Sum;
    SumOfTwo(n, i, t);
    SumOfTwo(n, i, terms);
    assert terms(i) == (1.0 - f) * line(i) as real && terms(i + 1) == f * line(i + 1) as real;
  }

  /** With one place that weighs, the quotient is its byte. */
  lemma OneTerm(n: nat, k: int, t: Vec, terms: Vec, line: int -> Byte)
    requires 0 <= k < n && t(k) > 0.0 && forall p :: 0 <= p < n && p != k ==> t(p) == 0.0
    requires forall p :: terms(p) == t(p) * line(p) as real
    ensures Sum(0, n, t) > 0.0 && Sum(0, n, terms) / Sum(0, n, t) == line(k) as real
  {
    hide Sum;
    SumOnly(0, n, k, t);
    SumOnly(0, n, k, terms);
    QuotientIs(t(k) * line(k) as real, t(k), line(k) as real);
  }

  /** Centres lie within the side. */
  lemma CentreInSide(a: Axis, xx: int)
    requires a.Valid() && a.from > 0 && 0 <= xx < a.to
    ensures 0.0 < CentreOf(a.from, a.to, xx) < a.from as real
  {
    hide CentreOf, Axis.Center;
    CentreIs(a, xx);
    CenterInside(a, xx);
  }

  /** And the byte is within a level of it. */
  lemma PixelIsBilinear(a: Axis, line: int -> Byte, xx: int, i: int, f: real)
    requires 0 < a.from <= a.to && 0 <= xx < a.to && 0.0 <= f < 1.0
    requires CentreOf(a.from, a.to, xx) - 0.5 == i as real + f
    ensures -1.0 < PixelOf(a, line, xx) as real - Between(a.from, line, i, f) < 1.0
  {
    hide CentreOf, PixelOf, Blend, Between;
    BlendIsBilinear(a, line, xx, i, f);
    SmallTable(a);
    PixelWithinLevel(a, line, xx);
  }

  lemma SmallTable(a: Axis)
    requires 0 < a.from <= a.to
    ensures Exact(a)
  {
    hide CentreOf, Axis.Scale, Axis.Center;
    CentreIs(a, 0);
    CeilBound(1.0);
  }

  // ----- an image that does not shrink -----

  /** The byte of a pixel as the buffer holds it, rows of pixels of three channels, the edges continued. */
  function Sample(src: Rgb8, ch: int, r: int, c: int): Byte {
    var at := (Kept(src.height, r) * src.width + Kept(src.width, c)) * 3 + ch;
    if 0 <= at < |src.data| then src.data[at] else 0
  }

  /** Row r between the columns i and i + 1. */
  function RowBetween(src: Rgb8, ch: int, r: int, i: int, f: real): real {
    (1.0 - f) * Sample(src, ch, r, i) as real + f * Sample(src, ch, r, i + 1) as real
  }

  /** The four pixels about a place, weighed by how near they are. */
  function Bilinear4(src: Rgb8, ch: int, k: int, h: real, i: int, f: real): real {
    (1.0 - h) * RowBetween(src, ch, k, i, f) + h * RowBetween(src, ch, k + 1, i, f)
  }

  lemma LineReads(src: Rgb8, r: int, ch: int, i: int, f: real)
    requires 0 < src.width && 0 <= r < src.height
    ensures Between(src.width, src.Across(r, ch), i, f) == RowBetween(src, ch, r, i, f)
  {
    assert Kept(src.height, r) == r;
  }

  /** A kept side is read in place. */
  lemma KeptCentre(n: nat, q: int, i: int, f: real)
    requires n > 0 && 0.0 <= f < 1.0 && CentreOf(n, n, q) - 0.5 == i as real + f
    ensures i == q && f == 0.0
  {
    QuotientIs((2 * q + 1) as real * n as real, 2.0 * n as real, q as real + 0.5);
    assert i as real + f == q as real;
  }

  lemma NoFraction(n: nat, line: int -> Byte, i: int)
    requires 0 <= i < n
    ensures Between(n, line, i, 0.0) == line(i) as real
  {
  }

  /** The image between the passes is within a level of the line through two of a row's pixels. */
  lemma MidNear(src: Rgb8, width: nat, r: int, x: int, ch: int, i: int, f: real)
    requires 0 < src.width <= width && 0 <= r < src.height && 0 <= x < width && 0.0 <= f < 1.0
    requires CentreOf(src.width, width, x) - 0.5 == i as real + f
    ensures -1.0 < MidAt(src, width, r, x, ch) as real - RowBetween(src, ch, r, i, f) < 1.0
  {
    hide CentreOf, PixelOf, Between, RowBetween, Rgb8.At;
    LineReads(src, r, ch, i, f);
    if width == src.width {
      KeptCentre(width, x, i, f);
      NoFraction(width, src.Across(r, ch), i);
    } else {
      PixelIsBilinear(Axis(src.width, width), src.Across(r, ch), x, i, f);
    }
  }

  /** Two near bytes blended are as near. */
  lemma BlendNearly(g: real, h: real, a: real, b: real, a': real, b': real)
    requires 0.0 <= h < 1.0 && g == 1.0 - h && -1.0 < a - a' < 1.0 && -1.0 < b - b' < 1.0
    ensures -1.0 < (g * a + h * b) - (g * a' + h * b') < 1.0
  {
    var ga, ga', hb, hb' := g * a, g * a', h * b, h * b';
    Apart(g, a, a', ga, ga');
    Apart(h, b, b', hb, hb');
  }

  /** Within w, and strictly so where w is positive. */
  lemma Apart(w: real, a: real, a': real, wa: real, wa': real)
    requires 0.0 <= w && -1.0 < a - a' < 1.0 && wa == w * a && wa' == w * a'
    ensures -w <= wa - wa' <= w && (w > 0.0 ==> -w < wa - wa' < w)
  {
    var d := a - a';
    var p := w * d;
    assert p == wa - wa' by {
      assert a == a' + d;
      Distributes(w, a', d);
    }
    if w > 0.0 {
      StrictlyWeighed(w, d, p);
    } else {
      assert w == 0.0;
    }
  }

  lemma Distributes(w: real, a: real, d: real)
    ensures w * (a + d) == w * a + w * d
  {
  }

  lemma StrictlyWeighed(w: real, d: real, p: real)
    requires 0.0 < w && -1.0 < d < 1.0 && p == w * d
    ensures -w < p < w
  {
  }

  /** An image resized to sides no shorter: every byte is within two levels of the four bytes of its channel
      about the place, each pass rounding once. */
  lemma ResizedIsBilinear(src: Rgb8, width: nat, height: nat, y: int, x: int, ch: int, k: int, h: real, i: int,
                          f: real)
    requires 0 < src.width <= width && 0 < src.height <= height && 0 <= y < height && 0 <= x < width
    requires 0.0 <= f < 1.0 && CentreOf(src.width, width, x) - 0.5 == i as real + f
    requires 0.0 <= h < 1.0 && CentreOf(src.height, height, y) - 0.5 == k as real + h
    ensures -2.0 < ResizedAt(src, width, height, y, x, ch) as real - Bilinear4(src, ch, k, h, i, f) < 2.0
  {
    hide CentreOf, PixelOf, MidAt, Between, RowBetween;
    var mid := MidDown(src, width, x, ch);
    var r0, r1 := Kept(src.height, k), Kept(src.height, k + 1);
    MidNear(src, width, r0, x, ch, i, f);
    MidNear(src, width, r1, x, ch, i, f);
    SameRows(src, ch, k, i, f);
    SameRows(src, ch, k + 1, i, f);
    BlendNearly(1.0 - h, h, mid(r0) as real, mid(r1) as real, RowBetween(src, ch, r0, i, f),
                RowBetween(src, ch, r1, i, f));
    BetweenIs(src.height, mid, k, h);
    if height == src.height {
      KeptCentre(height, y, k, h);
      NoFraction(height, mid, k);
    } else {
      PixelIsBilinear(Axis(src.height, height), mid, y, k, h);
    }
  }

  lemma BetweenIs(n: nat, line: int -> Byte, i: int, f: real)
    ensures Between(n, line, i, f) == (1.0 - f) * line(Kept(n, i)) as real + f * line(Kept(n, i + 1)) as real
  {
  }

  lemma SameRows(src: Rgb8, ch: int, r: int, i: int, f: real)
    requires src.height > 0
    ensures RowBetween(src, ch, Kept(src.height, r), i, f) == RowBetween(src, ch, r, i, f)
  {
    assert Kept(src.height, Kept(src.height, r)) == Kept(src.height, r);
  }
}
