/** What the algorithms use of real analysis: an exponential and its inverse, known by their laws
    alone; the logarithm of an empty sum; and forward-mode derivatives as dual numbers. */
module Analysis {
  import opened Sums

  datatype Option<+T> = None | Some(value: T)

  /** A value, or the -inf of the logarithm of 0. */
  datatype Extended = NegInf | Fin(val: real)

  function Max(a: real, b: real): real { if a < b then b else a }

  function MinInt(a: int, b: int): int { if a < b then a else b }

  function MaxInt(a: int, b: int): int { if a < b then b else a }

  /** The lowest finite f32, where every running maximum starts. */
  const LOWEST: real := -340282346638528859811704183484516925440.0

  /** An exponential and a logarithm. */
  datatype Exponential = Exponential(exp: real -> real, ln: real -> real) {

    ghost predicate AddLaw(x: real, y: real) { exp(x + y) == exp(x) * exp(y) }

    ghost predicate MonotoneLaw(x: real, y: real) { x < y ==> exp(x) < exp(y) }

    ghost predicate Laws() {
      && exp(0.0) == 1.0
      && (forall x :: exp(x) > 0.0)
      && (forall x, y :: AddLaw(x, y))
      && (forall x, y :: MonotoneLaw(x, y))
      && (forall y :: y > 0.0 ==> exp(ln(y)) == y)
    }

    /** The logarithm of a sum of exponentials, -inf for the empty sum. */
    function Log(s: real): Extended { if s > 0.0 then Fin(ln(s)) else NegInf }
  }

  lemma Ratio(w: real, z: real)
    requires z != 0.0
    ensures w / z == (1.0 / z) * w
    ensures z / z == 1.0
  {
  }

  lemma ThreeFactors(a: real, b: real, c: real)
    ensures a * b * c == a * (b * c)
  {
  }

  lemma SignOfScaled(s: real, f: real, z: real)
    requires f > 0.0 && s * f == z
    ensures s > 0.0 <==> z > 0.0
    ensures s == 0.0 <==> z == 0.0
  {
    if s > 0.0 {
      assert s * f > 0.0;
    } else if s < 0.0 {
      assert (-s) * f > 0.0;
    }
  }

  lemma QuotientOfScaled(o: real, s: real, f: real)
    requires s != 0.0 && f > 0.0
    ensures s * f != 0.0 && (o * f) / (s * f) == o / s
  {
    var t := o / s;
    assert o * f == t * (s * f);
  }

  /** Shifting an exponent: exp(x - m) exp(m) = exp(x). */
  lemma ExpShift(e: Exponential, x: real, m: real)
    requires e.Laws()
    ensures e.exp(x - m) * e.exp(m) == e.exp(x)
  {
    assert e.AddLaw(x - m, m);
    assert x - m + m == x;
  }

  /** ln of a sum kept as s exp(m). */
  lemma LnOfShifted(e: Exponential, m: real, s: real, z: real)
    requires e.Laws() && s > 0.0 && s * e.exp(m) == z
    ensures z > 0.0 && e.ln(z) == m + e.ln(s)
  {
    assert s * e.exp(m) > 0.0;
    assert e.AddLaw(m, e.ln(s));
    assert e.MonotoneLaw(e.ln(z), m + e.ln(s));
    assert e.MonotoneLaw(m + e.ln(s), e.ln(z));
  }

  lemma ExpOfDifference(e: Exponential, x: real, z: real)
    requires e.Laws() && z > 0.0
    ensures e.exp(x - e.ln(z)) == e.exp(x) / z
  {
    ExpShift(e, x, e.ln(z));
    assert e.exp(x - e.ln(z)) * z == e.exp(x);
  }

  /** m is the greatest of floor and the entries of f where vis holds in lo..hi. */
  ghost predicate IsPeak(m: real, floor: real, lo: int, hi: int, vis: int -> bool, f: Vec) {
    && floor <= m
    && (forall j :: lo <= j < hi && vis(j) ==> f(j) <= m)
    && (m == floor || exists j :: lo <= j < hi && vis(j) && f(j) == m)
  }

  lemma SamePeak(m: real, floor: real, lo: int, hi: int, vis: int -> bool, f: Vec, vis': int -> bool, f': Vec)
    requires IsPeak(m, floor, lo, hi, vis, f) && forall j :: lo <= j < hi ==> vis'(j) == vis(j) && f'(j) == f(j)
    ensures IsPeak(m, floor, lo, hi, vis', f')
  {
    if m != floor {
      var j :| lo <= j < hi && vis(j) && f(j) == m;
      assert vis'(j) && f'(j) == m;
    }
  }

  /** A number and its derivative along one direction of the inputs. */
  datatype Dual = Dual(v: real, t: real) {

    function Plus(b: Dual): Dual { Dual(v + b.v, t + b.t) }

    function Minus(b: Dual): Dual { Dual(v - b.v, t - b.t) }

    function Times(b: Dual): Dual { Dual(v * b.v, t * b.v + v * b.t) }

    function Over(b: Dual): Dual
      requires b.v != 0.0
    {
      Dual(v / b.v, (t * b.v - v * b.t) / (b.v * b.v))
    }

    function Exp(e: Exponential): Dual { Dual(e.exp(v), e.exp(v) * t) }

    function Ln(e: Exponential): Dual
      requires v > 0.0
    {
      Dual(e.ln(v), t / v)
    }
  }

  /** A constant: no direction changes it. */
  function Const(x: real): Dual { Dual(x, 0.0) }

  function Values(f: int -> Dual): Vec { j => f(j).v }

  function Tangents(f: int -> Dual): Vec { j => f(j).t }

  /** The sum of f over lo..hi, derivative and all. */
  function SumDual(lo: int, hi: int, f: int -> Dual): Dual {
    Dual(Sum(lo, hi, Values(f)), Sum(lo, hi, Tangents(f)))
  }

  lemma SumDualEqual(lo: int, hi: int, f: int -> Dual, g: int -> Dual)
    requires forall i :: lo <= i < hi ==> f(i) == g(i)
    ensures SumDual(lo, hi, f) == SumDual(lo, hi, g)
  {
    SumEqual(lo, hi, Values(f), Values(g));
    SumEqual(lo, hi, Tangents(f), Tangents(g));
  }

  /** Terms alike, moved by d places. */
  lemma SumDualShift(lo: int, hi: int, d: int, f: int -> Dual, g: int -> Dual)
    requires forall i :: lo <= i < hi ==> g(i) == f(i + d)
    ensures SumDual(lo, hi, g) == SumDual(lo + d, hi + d, f)
  {
    SumShift(lo, hi, d, Values(f), Values(g));
    SumShift(lo, hi, d, Tangents(f), Tangents(g));
  }
}
