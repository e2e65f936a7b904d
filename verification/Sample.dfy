/** Drawing a token from a row of logits: the cuts of top-k and top-p as the sampler takes them, from
    the row sorted and its weights summed along the sort, against the sets the definition names;
    and the draw, which never leaves them. */
module Sample {
  import opened Sums
  import opened Analysis
  import Scans

  /** The order of logits, -inf below every number. */
  predicate Ge(a: Extended, b: Extended) { b.NegInf? || (a.Fin? && a.val >= b.val) }

  predicate Gt(a: Extended, b: Extended) { !Ge(b, a) }

  // ----- the definition -----

  /** A row of V logits, the ids taken out of the vocabulary, and the options. */
  datatype Row = Row(e: Exponential, z: seq<Extended>, masked: set<nat>, tau: real, topK: nat, topP: real) {

    ghost predicate Valid() {
      && e.Laws() && tau > 0.0 && 0.0 <= topP <= 1.0
      && (forall i :: i in masked ==> 0 <= i < |z|)
      && |masked| < |z|
    }

    /** The vocabulary less the masked ids. */
    predicate U(i: int) { 0 <= i < |z| && i !in masked }

    /** The logit of an id, -inf where it is masked. */
    function At(i: int): Extended { if U(i) then z[i] else NegInf }

    predicate CutsK() { 0 < topK < |z| - |masked| }

    predicate CutsP() { topP < 1.0 }

    /** The tempered weight of a logit, m the row's largest. */
    function Weight(m: real, x: Extended): real {
      match x
      case NegInf => 0.0
      case Fin(a) => e.exp(Temper(m, a))
    }

    /** A logit taken off the largest and divided by the temperature. */
    function Temper(m: real, a: real): real { (a - m) * tau }

    ghost predicate IsMax(m: real) {
      && (exists i :: U(i) && At(i) == Fin(m))
      && (forall i :: U(i) ==> Ge(Fin(m), At(i)))
    }
  }

  function Ones(p: int -> bool): Vec { i => if p(i) then 1.0 else 0.0 }

  function Count(n: int, p: int -> bool): real { Sum(0, n, Ones(p)) }

  function IdsAbove(r: Row, x: Extended): int -> bool { i => r.U(i) && Gt(r.At(i), x) }

  function IdsFrom(r: Row, x: Extended): int -> bool { i => r.U(i) && Ge(r.At(i), x) }

  /** x is the k-th largest logit of U, equal logits counted each. */
  ghost predicate IsKthLargest(r: Row, x: Extended) {
    Count(|r.z|, IdsAbove(r, x)) < r.topK as real <= Count(|r.z|, IdsFrom(r, x))
  }

  /** K: every id of U, or those not below the k-th largest logit. */
  predicate InK(r: Row, kth: Option<Extended>, i: int) {
    r.U(i) && (kth.Some? ==> Ge(r.At(i), kth.value))
  }

  function MassTerms(r: Row, m: real, kth: Option<Extended>, v: Extended): Vec {
    i => if InK(r, kth, i) && Ge(r.At(i), v) then r.Weight(m, r.At(i)) else 0.0
  }

  /** The tempered mass of K from the logit v up: all of K's at -inf. */
  function Mass(r: Row, m: real, kth: Option<Extended>, v: Extended): real { Sum(0, |r.z|, MassTerms(r, m, kth, v)) }

  /** v is the largest logit of K whose mass from it up, ties and all, reaches p of K's. */
  ghost predicate IsNucleus(r: Row, m: real, kth: Option<Extended>, v: Extended) {
    && (exists i :: InK(r, kth, i) && r.At(i) == v)
    && Mass(r, m, kth, v) >= r.topP * Mass(r, m, kth, NegInf)
    && (forall i :: InK(r, kth, i) && Gt(r.At(i), v) ==> Mass(r, m, kth, r.At(i)) < r.topP * Mass(r, m, kth, NegInf))
  }

  /** The definition's two cuts, each present where its option cuts. */
  ghost predicate IsCut(r: Row, m: real, kth: Option<Extended>, v: Option<Extended>) {
    && (kth.Some? <==> r.CutsK()) && (kth.Some? ==> IsKthLargest(r, kth.value))
    && (v.Some? <==> r.CutsP()) && (v.Some? ==> IsNucleus(r, m, kth, v.value))
  }

  /** P: the ids drawn from. */
  predicate InP(r: Row, kth: Option<Extended>, v: Option<Extended>, i: int) {
    InK(r, kth, i) && (v.Some? ==> Ge(r.At(i), v.value))
  }

  lemma KthUnique(r: Row, x: Extended, y: Extended)
    requires IsKthLargest(r, x) && IsKthLargest(r, y)
    ensures !Gt(y, x)
  {
    hide Sum;
    if Gt(y, x) {
      SumMonotone(0, |r.z|, Ones(IdsFrom(r, y)), Ones(IdsAbove(r, x)));
    }
  }

  /** The definition names one pair of cuts. */
  lemma CutUnique(r: Row, m: real, kth: Option<Extended>, v: Option<Extended>, kth': Option<Extended>,
                  v': Option<Extended>)
    requires IsCut(r, m, kth, v) && IsCut(r, m, kth', v')
    ensures kth == kth' && v == v'
  {
    hide Mass, Count;
    if kth.Some? {
      KthUnique(r, kth.value, kth'.value);
      KthUnique(r, kth'.value, kth.value);
    }
  }

  // ----- the sort -----

  ghost predicate Descending(s: seq<Extended>) { forall i, j :: 0 <= i < j < |s| ==> Ge(s[i], s[j]) }

  function Insert(x: Extended, s: seq<Extended>): (r: seq<Extended>)
    ensures multiset(r) == multiset(s) + multiset{x}
    decreases |s|
  {
    if s == [] || Ge(x, s[0]) then
      [x] + s
    else
      assert s == [s[0]] + s[1..];
      [s[0]] + Insert(x, s[1..])
  }

  lemma {:induction false} InsertDescends(x: Extended, s: seq<Extended>)
    requires Descending(s)
    ensures Descending(Insert(x, s))
    decreases |s|
  {
    if s != [] && !Ge(x, s[0]) {
      var rest := Insert(x, s[1..]);
      InsertDescends(x, s[1..]);
      forall j | 0 <= j < |rest|
        ensures Ge(s[0], rest[j])
      {
        assert rest[j] in multiset(rest);
        assert rest[j] == x || rest[j] in s[1..];
      }
    }
  }

  /** The row in descending order. */
  function Sorted(x: seq<Extended>): (s: seq<Extended>)
    ensures multiset(s) == multiset(x)
  {
    if x == [] then [] else
      assert x == [x[0]] + x[1..];
      Insert(x[0], Sorted(x[1..]))
  }

  lemma {:induction false} SortedDescends(x: seq<Extended>)
    ensures Descending(Sorted(x)) && |Sorted(x)| == |x|
  {
    assert |Sorted(x)| == |multiset(Sorted(x))| == |multiset(x)|;
    if x != [] {
      SortedDescends(x[1..]);
      InsertDescends(x[0], Sorted(x[1..]));
    }
  }

  function Over(h: Extended -> real, s: seq<Extended>): Vec { i => if 0 <= i < |s| then h(s[i]) else 0.0 }

  /** A sum over a row is the sum over any order of it. */
  lemma {:induction false} SumOfPermutation(h: Extended -> real, a: seq<Extended>, b: seq<Extended>)
    requires multiset(a) == multiset(b)
    ensures |a| == |b| && Sum(0, |a|, Over(h, a)) == Sum(0, |b|, Over(h, b))
    decreases |a|
  {
    if a == [] {
      assert |b| == |multiset(b)| == |multiset(a)|;
    } else {
      var last := |a| - 1;
      var j := PlaceOf(a, b);
      var rest := b[..j] + b[j + 1..];
      SumOfPermutation(h, a[..last], rest);
      SumEqual(0, last, Over(h, a), Over(h, a[..last]));
      RestAt(h, b, j, rest);
      SumGap(last, j, Over(h, b), Over(h, rest));
    }
  }

  /** Where a's last entry stands in b, and the two without it. */
  lemma PlaceOf(a: seq<Extended>, b: seq<Extended>) returns (j: nat)
    requires a != [] && multiset(a) == multiset(b)
    ensures j < |b| && b[j] == a[|a| - 1]
    ensures multiset(a[..|a| - 1]) == multiset(b[..j] + b[j + 1..])
  {
    var last := |a| - 1;
    WithoutOne(a, last);
    assert a[..last] + a[last + 1..] == a[..last];
    assert a[last] in multiset(b);
    j :| 0 <= j < |b| && b[j] == a[last];
    WithoutOne(b, j);
  }

  lemma WithoutOne(s: seq<Extended>, j: nat)
    requires j < |s|
    ensures multiset(s[..j] + s[j + 1..]) == multiset(s) - multiset{s[j]}
  {
    assert s == s[..j] + [s[j]] + s[j + 1..];
    assert multiset(s) == multiset(s[..j] + s[j + 1..]) + multiset{s[j]};
  }

  lemma RestAt(h: Extended -> real, b: seq<Extended>, j: nat, rest: seq<Extended>)
    requires j < |b| && rest == b[..j] + b[j + 1..]
    ensures |rest| == |b| - 1 && Over(h, b)(j) == h(b[j])
    ensures forall i :: 0 <= i < j ==> Over(h, b)(i) == Over(h, rest)(i)
    ensures forall i :: j <= i < |rest| ==> Over(h, rest)(i) == Over(h, b)(i + 1)
  {
  }

  /** A sum with the term j left out. */
  lemma SumGap(n: nat, j: nat, f: Vec, g: Vec)
    requires j <= n
    requires forall i :: 0 <= i < j ==> f(i) == g(i)
    requires forall i :: j <= i < n ==> g(i) == f(i + 1)
    ensures Sum(0, n + 1, f) == Sum(0, n, g) + f(j)
  {
    hide Sum;
    SumSplit(0, j, n + 1, f);
    SumSplit(j, j + 1, n + 1, f);
    SumOnly(j, j + 1, j, f);
    SumSplit(0, j, n, g);
    SumEqual(0, j, f, g);
    SumShift(j, n, 1, f, g);
  }

  // ----- what the sort tells -----

  /** The row, the masked logits at -inf. */
  function Zm(r: Row): seq<Extended> { seq(|r.z|, i requires 0 <= i < |r.z| => r.At(i)) }

  function InOrder(r: Row): seq<Extended> { Sorted(Zm(r)) }

  function One(yes: bool): real { if yes then 1.0 else 0.0 }

  function Above(x: Extended): Extended -> real { y => One(Gt(y, x)) }

  function From(x: Extended): Extended -> real { y => One(Ge(y, x)) }

  /** The weight of a logit that K keeps, from v up. */
  function KWeight(r: Row, m: real, kth: Option<Extended>, v: Extended): Extended -> real {
    y => if (kth.Some? ==> Ge(y, kth.value)) && Ge(y, v) then r.Weight(m, y) else 0.0
  }

  lemma OrderFacts(r: Row)
    ensures |InOrder(r)| == |r.z| && Descending(InOrder(r))
    ensures forall j :: 0 <= j < |r.z| ==> exists i :: 0 <= i < |r.z| && r.At(i) == InOrder(r)[j]
    ensures forall i :: 0 <= i < |r.z| ==> r.At(i) in InOrder(r)
  {
    SortedDescends(Zm(r));
    forall j | 0 <= j < |r.z|
      ensures exists i :: 0 <= i < |r.z| && r.At(i) == InOrder(r)[j]
    {
      assert InOrder(r)[j] in multiset(Zm(r));
      var i :| 0 <= i < |Zm(r)| && Zm(r)[i] == InOrder(r)[j];
    }
    forall i | 0 <= i < |r.z|
      ensures r.At(i) in InOrder(r)
    {
      assert Zm(r)[i] in multiset(InOrder(r));
    }
  }

  /** A sum over the ids is the sum along the sort. */
  lemma AlongTheSort(r: Row, h: Extended -> real, f: Vec)
    requires forall i :: 0 <= i < |r.z| ==> f(i) == h(r.At(i))
    ensures Sum(0, |r.z|, f) == Sum(0, |r.z|, Over(h, InOrder(r)))
  {
    hide Sum, Sorted;
    SumOfPermutation(h, Zm(r), InOrder(r));
    SumEqual(0, |r.z|, f, Over(h, Zm(r)));
  }

  lemma MassAlongTheSort(r: Row, m: real, kth: Option<Extended>, v: Extended)
    ensures Mass(r, m, kth, v) == Sum(0, |r.z|, Over(KWeight(r, m, kth, v), InOrder(r)))
  {
    hide Sum, InOrder;
    forall i | 0 <= i < |r.z|
      ensures MassTerms(r, m, kth, v)(i) == KWeight(r, m, kth, v)(r.At(i))
    {
    }
    AlongTheSort(r, KWeight(r, m, kth, v), MassTerms(r, m, kth, v));
  }

  function MaskedBelow(r: Row, n: int): set<nat> { set i | i in r.masked && i < n }

  lemma MaskedStep(r: Row, n: nat)
    ensures |MaskedBelow(r, n + 1)| == |MaskedBelow(r, n)| + if n in r.masked then 1 else 0
  {
    if n in r.masked {
      assert MaskedBelow(r, n + 1) == MaskedBelow(r, n) + {n};
    } else {
      assert MaskedBelow(r, n + 1) == MaskedBelow(r, n);
    }
  }

  lemma {:induction false} CountUnmasked(r: Row, n: nat)
    requires r.Valid() && n <= |r.z|
    ensures Sum(0, n, Ones(IdsFrom(r, NegInf))) == (n - |MaskedBelow(r, n)|) as real
    decreases n
  {
    if n == 0 {
      assert MaskedBelow(r, 0) == {};
    } else {
      hide MaskedBelow;
      CountUnmasked(r, n - 1);
      MaskedStep(r, n - 1);
    }
  }

  /** The k-th entry of the sort is the k-th largest logit of U: the masked ones sort last. */
  lemma KthFromSort(r: Row)
    requires r.Valid() && r.CutsK() && |InOrder(r)| == |r.z|
    ensures IsKthLargest(r, InOrder(r)[r.topK - 1])
  {
    hide Sum, InOrder, MaskedBelow;
    OrderFacts(r);
    var s, n, k := InOrder(r), |r.z|, r.topK;
    var x := s[k - 1];
    KthAbove(r, x);
    AlongTheSort(r, Above(x), Ones(IdsAbove(r, x)));
    if x.NegInf? {
      CountUnmasked(r, n);
      assert MaskedBelow(r, n) == r.masked by { AllMasked(r); }
    } else {
      KthFrom(r, x);
      AlongTheSort(r, From(x), Ones(IdsFrom(r, x)));
    }
    SumsAtKth(s, k);
  }

  lemma AllMasked(r: Row)
    requires r.Valid()
    ensures MaskedBelow(r, |r.z|) == r.masked
  {
  }

  lemma KthAbove(r: Row, x: Extended)
    ensures forall i :: 0 <= i < |r.z| ==> Ones(IdsAbove(r, x))(i) == Above(x)(r.At(i))
  {
  }

  lemma KthFrom(r: Row, x: Extended)
    requires x.Fin?
    ensures forall i :: 0 <= i < |r.z| ==> Ones(IdsFrom(r, x))(i) == From(x)(r.At(i))
  {
  }

  /** Along a descending row: fewer than k entries above the k-th, at least k not below it. */
  lemma SumsAtKth(s: seq<Extended>, k: nat)
    requires Descending(s) && 0 < k <= |s|
    ensures Sum(0, |s|, Over(Above(s[k - 1]), s)) < k as real <= Sum(0, |s|, Over(From(s[k - 1]), s))
  {
    hide Sum;
    var f, g := Over(Above(s[k - 1]), s), Over(From(s[k - 1]), s);
    var ones: Vec := i => 1.0;
    SumSplit(0, k - 1, |s|, f);
    SumZero(k - 1, |s|, f);
    SumMonotone(0, k - 1, f, ones);
    SumOfOnes(0, k - 1, ones);
    SumSplit(0, k, |s|, g);
    SumOfOnes(0, k, g);
    SumNonNegative(k, |s|, g);
  }

  /** The sort starts at the row's largest logit. */
  lemma MaxFirst(r: Row, m: real)
    requires r.IsMax(m)
    ensures |InOrder(r)| == |r.z| > 0 && InOrder(r)[0] == Fin(m)
  {
    hide InOrder;
    OrderFacts(r);
    var i :| r.U(i) && r.At(i) == Fin(m);
    assert Fin(m) in InOrder(r);
    var k :| 0 <= k < |r.z| && r.At(k) == InOrder(r)[0];
    assert Ge(Fin(m), r.At(k));
  }

  /** Where along the sort K's mass first reaches p of its whole. */
  ghost predicate ReachesAt(r: Row, m: real, kth: Option<Extended>, first: nat) {
    var f := Over(KWeight(r, m, kth, NegInf), InOrder(r));
    && first < |r.z|
    && Sum(0, first + 1, f) >= r.topP * Sum(0, |r.z|, f)
    && (first > 0 ==> Sum(0, first, f) < r.topP * Sum(0, |r.z|, f))
  }

  lemma WeightPositive(r: Row, m: real, y: Extended)
    requires r.e.Laws()
    ensures r.Weight(m, y) >= 0.0 && (y.Fin? ==> r.Weight(m, y) > 0.0)
  {
  }

  lemma KWeightsNonNegative(r: Row, m: real, kth: Option<Extended>, v: Extended)
    requires r.e.Laws()
    ensures forall j :: Over(KWeight(r, m, kth, v), InOrder(r))(j) >= 0.0
  {
    hide InOrder;
    forall j
      ensures Over(KWeight(r, m, kth, v), InOrder(r))(j) >= 0.0
    {
      if 0 <= j < |InOrder(r)| {
        WeightPositive(r, m, InOrder(r)[j]);
      }
    }
  }

  lemma NotBelowOwn(p: real, total: real)
    requires p <= 1.0 && total >= 0.0
    ensures p * total <= total
  {
    assert (1.0 - p) * total >= 0.0;
  }

  /** The mass is reached at a logit of K that is not -inf: past K's last there is no more mass. */
  lemma ReachedInK(r: Row, m: real, kth: Option<Extended>, first: nat)
    requires r.Valid() && r.IsMax(m) && |InOrder(r)| == |r.z|
    requires kth.Some? ==> Ge(Fin(m), kth.value)
    requires ReachesAt(r, m, kth, first)
    ensures InOrder(r)[first].Fin? && (kth.Some? ==> Ge(InOrder(r)[first], kth.value))
  {
    hide Sum, InOrder;
    OrderFacts(r);
    MaxFirst(r, m);
    var s, t := InOrder(r), InOrder(r)[first];
    var f := Over(KWeight(r, m, kth, NegInf), s);
    if !(t.Fin? && (kth.Some? ==> Ge(t, kth.value))) {
      forall j | first <= j < |s|
        ensures f(j) == 0.0
      {
        assert Ge(t, s[j]);
      }
      SumZero(first, |s|, f);
      SumSplit(0, first, |s|, f);
      KWeightsNonNegative(r, m, kth, NegInf);
      SumNonNegative(0, |s|, f);
      NotBelowOwn(r.topP, Sum(0, |s|, f));
    }
  }

  /** Top-p's logit: where along the sort the mass of K first reaches p of its whole. */
  lemma NucleusFromSort(r: Row, m: real, kth: Option<Extended>, first: nat)
    requires r.Valid() && r.IsMax(m) && |InOrder(r)| == |r.z|
    requires kth.Some? ==> Ge(Fin(m), kth.value)
    requires ReachesAt(r, m, kth, first)
    ensures IsNucleus(r, m, kth, InOrder(r)[first])
  {
    hide Sum, InOrder, Mass, KWeight, Over;
    var t := InOrder(r)[first];
    var id := IdReached(r, m, kth, first);
    MassReached(r, m, kth, first);
    forall i | InK(r, kth, i) && Gt(r.At(i), t)
      ensures Mass(r, m, kth, r.At(i)) < r.topP * Mass(r, m, kth, NegInf)
    {
      MassNotReached(r, m, kth, first, i);
    }
  }

  lemma IdReached(r: Row, m: real, kth: Option<Extended>, first: nat) returns (i: int)
    requires r.Valid() && r.IsMax(m) && |InOrder(r)| == |r.z|
    requires kth.Some? ==> Ge(Fin(m), kth.value)
    requires ReachesAt(r, m, kth, first)
    ensures InK(r, kth, i) && r.At(i) == InOrder(r)[first] && Descending(InOrder(r))
  {
    hide Sum, InOrder, KWeight, Over;
    OrderFacts(r);
    ReachedInK(r, m, kth, first);
    i :| 0 <= i < |r.z| && r.At(i) == InOrder(r)[first];
  }

  lemma MassReached(r: Row, m: real, kth: Option<Extended>, first: nat)
    requires r.Valid() && |InOrder(r)| == |r.z| && Descending(InOrder(r))
    requires ReachesAt(r, m, kth, first)
    ensures Mass(r, m, kth, InOrder(r)[first]) >= r.topP * Mass(r, m, kth, NegInf)
  {
    hide Sum, InOrder, Mass;
    var s, n, t := InOrder(r), |r.z|, InOrder(r)[first];
    var f, g := Over(KWeight(r, m, kth, NegInf), s), Over(KWeight(r, m, kth, t), s);
    MassAlongTheSort(r, m, kth, NegInf);
    MassAlongTheSort(r, m, kth, t);
    SumSplit(0, first + 1, n, g);
    SumEqual(0, first + 1, f, g);
    KWeightsNonNegative(r, m, kth, t);
    SumNonNegative(first + 1, n, g);
  }

  lemma MassNotReached(r: Row, m: real, kth: Option<Extended>, first: nat, i: int)
    requires r.Valid() && r.IsMax(m) && |InOrder(r)| == |r.z| && Descending(InOrder(r))
    requires ReachesAt(r, m, kth, first)
    requires r.U(i) && Gt(r.At(i), InOrder(r)[first])
    ensures Mass(r, m, kth, r.At(i)) < r.topP * Mass(r, m, kth, NegInf)
  {
    hide Sum, InOrder, Mass;
    var s, n, u := InOrder(r), |r.z|, r.At(i);
    var f, g := Over(KWeight(r, m, kth, NegInf), s), Over(KWeight(r, m, kth, u), s);
    MaxFirst(r, m);
    MassAlongTheSort(r, m, kth, NegInf);
    MassAlongTheSort(r, m, kth, u);
    KWeightsNonNegative(r, m, kth, NegInf);
    SumSplit(0, first, n, g);
    SumMonotone(0, first, g, f);
    forall j | first <= j < n
      ensures g(j) == 0.0
    {
      assert j == first || Ge(s[first], s[j]);
    }
    SumZero(first, n, g);
  }

  // ----- the cut -----

  /** How the mass is summed along the sort: the library's scan, or one of the two trees. */
  datatype CutSum = Scan | Tree | Pairs

  function Cumulative(x: seq<real>): seq<real> { seq(|x|, i => Sum(0, i + 1, Scans.Entries(x))) }

  /** The first of a row's largest entries. */
  method Argmax(x: seq<Extended>) returns (t: nat)
    requires |x| > 0
    ensures t < |x|
    ensures forall i :: 0 <= i < |x| ==> Ge(x[t], x[i])
    ensures forall i :: 0 <= i < t ==> Gt(x[t], x[i])
  {
    t := 0;
    for j := 1 to |x|
      invariant t < j
      invariant forall i :: 0 <= i < j ==> Ge(x[t], x[i])
      invariant forall i :: 0 <= i < t ==> Gt(x[t], x[i])
    {
      if Gt(x[j], x[t]) {
        t := j;
      }
    }
  }

  /** The first entry that reaches p of the last. */
  method FirstReached(c: seq<real>, p: real) returns (first: nat)
    requires |c| > 0 && c[|c| - 1] >= p * c[|c| - 1]
    ensures first < |c| && c[first] >= p * c[|c| - 1]
    ensures forall i :: 0 <= i < first ==> c[i] < p * c[|c| - 1]
  {
    var target := c[|c| - 1] * p;
    var reached := seq(|c|, i requires 0 <= i < |c| => if c[i] >= target then Fin(1.0) else Fin(0.0));
    assert reached[|c| - 1] == Fin(1.0);
    first := Argmax(reached);
    assert Ge(reached[first], reached[|c| - 1]);
    forall i | 0 <= i < first
      ensures c[i] < target
    {
      assert Gt(reached[first], reached[i]);
    }
  }

  /** `cut`: the least logit kept, None where nothing cuts. */
  method Cut(r: Row, m: real, sum: CutSum)
    returns (threshold: Option<Extended>, ghost kth: Option<Extended>, ghost v: Option<Extended>)
    requires r.Valid() && r.IsMax(m)
    ensures IsCut(r, m, kth, v)
    ensures threshold.None? <==> !r.CutsK() && !r.CutsP()
    ensures forall i :: r.U(i) ==> (InP(r, kth, v, i) <==> (threshold.Some? ==> Ge(r.At(i), threshold.value)))
    ensures threshold.Some? ==> Ge(Fin(m), threshold.value)
  {
    hide Sum, InOrder, IsKthLargest, IsNucleus, ReachesAt;
    threshold, kth, v := None, None, None;
    if !r.CutsK() && !r.CutsP() {
      return;
    }
    OrderFacts(r);
    MaxFirst(r, m);
    var sorted := InOrder(r);
    if r.CutsK() {
      threshold := Some(sorted[r.topK - 1]);
      kth := threshold;
      KthFromSort(r);
      assert r.topK - 1 == 0 || Ge(sorted[0], sorted[r.topK - 1]);
    }
    if r.CutsP() {
      var weights := Weights(r, m, sorted, threshold);
      var cumulative;
      match sum {
        case Scan => cumulative := Cumulative(weights);
        case Tree => var steps; cumulative, steps := Scans.TreeCumsum(weights);
        case Pairs => var depth; cumulative, depth := Scans.PairsCumsum(weights);
      }
      LastReaches(r, m, kth, weights, cumulative);
      var first := FirstReached(cumulative, r.topP);
      SortReaches(r, m, kth, weights, cumulative, first);
      NucleusFromSort(r, m, kth, first);
      ReachedInK(r, m, kth, first);
      assert first == 0 || Ge(sorted[0], sorted[first]);
      threshold := Some(sorted[first]);
      v := threshold;
    }
  }

  /** The weights along the sort, 0 below the k-th. */
  function Weights(r: Row, m: real, sorted: seq<Extended>, kth: Option<Extended>): seq<real> {
    seq(|sorted|, j requires 0 <= j < |sorted| =>
      if kth.Some? && Gt(kth.value, sorted[j]) then 0.0 else r.Weight(m, sorted[j]))
  }

  lemma WeightsAre(r: Row, m: real, kth: Option<Extended>, n: int)
    requires 0 <= n <= |InOrder(r)|
    ensures Sum(0, n, Scans.Entries(Weights(r, m, InOrder(r), kth)))
      == Sum(0, n, Over(KWeight(r, m, kth, NegInf), InOrder(r)))
  {
    hide Sum, InOrder;
    SumEqual(0, n, Scans.Entries(Weights(r, m, InOrder(r), kth)), Over(KWeight(r, m, kth, NegInf), InOrder(r)));
  }

  lemma LastReaches(r: Row, m: real, kth: Option<Extended>, weights: seq<real>, c: seq<real>)
    requires r.Valid() && |InOrder(r)| == |r.z|
    requires weights == Weights(r, m, InOrder(r), kth) && Scans.IsCumulative(c, weights)
    ensures |c| == |r.z| && c[|c| - 1] >= r.topP * c[|c| - 1]
  {
    hide Sum, InOrder, Over, KWeight;
    WeightsAre(r, m, kth, |r.z|);
    KWeightsNonNegative(r, m, kth, NegInf);
    SumNonNegative(0, |r.z|, Over(KWeight(r, m, kth, NegInf), InOrder(r)));
    NotBelowOwn(r.topP, c[|c| - 1]);
  }

  lemma SortReaches(r: Row, m: real, kth: Option<Extended>, weights: seq<real>, c: seq<real>, first: nat)
    requires r.Valid() && |InOrder(r)| == |r.z|
    requires weights == Weights(r, m, InOrder(r), kth) && Scans.IsCumulative(c, weights)
    requires first < |c| && c[first] >= r.topP * c[|c| - 1]
    requires forall i :: 0 <= i < first ==> c[i] < r.topP * c[|c| - 1]
    ensures ReachesAt(r, m, kth, first)
  {
    hide Sum, InOrder, Over, KWeight;
    WeightsAre(r, m, kth, |r.z|);
    WeightsAre(r, m, kth, first + 1);
    WeightsAre(r, m, kth, first);
    assert first > 0 ==> c[first - 1] == Sum(0, first - 1 + 1, Scans.Entries(weights));
  }

  /** K has at least k ids; P has the largest logit and, at p = 0, only it and its ties. */
  lemma ExtremesOfP(r: Row, m: real, kth: Option<Extended>, v: Option<Extended>, i: int)
    requires r.Valid() && r.IsMax(m) && IsCut(r, m, kth, v) && r.U(i)
    ensures r.CutsK() ==> Count(|r.z|, j => InK(r, kth, j)) >= r.topK as real
    ensures r.At(i) == Fin(m) ==> InP(r, kth, v, i)
    ensures r.topP == 0.0 ==> (InP(r, kth, v, i) <==> r.At(i) == Fin(m))
  {
    hide Sum;
    if r.CutsK() {
      SumEqual(0, |r.z|, Ones(j => InK(r, kth, j)), Ones(IdsFrom(r, kth.value)));
      KthNotAboveMax(r, m, kth.value);
    }
    if r.topP == 0.0 && Gt(Fin(m), v.value) {
      var top :| r.U(top) && r.At(top) == Fin(m);
      assert InK(r, kth, top);
      MassNonNegative(r, m, kth, Fin(m));
    }
  }

  lemma KthNotAboveMax(r: Row, m: real, x: Extended)
    requires r.IsMax(m) && r.CutsK() && IsKthLargest(r, x)
    ensures Ge(Fin(m), x)
  {
    hide Sum;
    if Gt(x, Fin(m)) {
      SumZero(0, |r.z|, Ones(IdsFrom(r, x)));
    }
  }

  lemma MassNonNegative(r: Row, m: real, kth: Option<Extended>, v: Extended)
    requires r.Valid()
    ensures Mass(r, m, kth, v) >= 0.0
  {
    hide Sum;
    forall i | 0 <= i < |r.z|
      ensures MassTerms(r, m, kth, v)(i) >= 0.0
    {
      WeightPositive(r, m, r.At(i));
    }
    SumNonNegative(0, |r.z|, MassTerms(r, m, kth, v));
  }

  // ----- the draw -----

  datatype Options = Options(temperature: real, topK: nat, topP: real, masked: set<nat>)

  /** What is drawn; a log-probability is None where it is NaN. */
  datatype Outcome =
    | Drawn(token: nat, logprob: Option<real>, tempered: Option<real>, sampling: Option<real>)
    | Rejected

  const LARGEST: real := -LOWEST

  function Tau(temperature: real): real
    requires temperature > 0.0
  {
    if 1.0 / temperature < LARGEST then 1.0 / temperature else LARGEST
  }

  /** The row under the options; at temperature 0 the cuts do not matter, nor tau. */
  function RowOf(e: Exponential, z: seq<Extended>, o: Options): Row {
    Row(e, z, o.masked, if o.temperature > 0.0 then Tau(o.temperature) else 1.0, o.topK, o.topP)
  }

  predicate Accepted(z: seq<Extended>, o: Options) {
    && |z| > 0 && o.temperature >= 0.0 && 0.0 <= o.topP <= 1.0
    && (forall i :: i in o.masked ==> i < |z|) && |o.masked| < |z|
  }

  lemma RowValid(e: Exponential, z: seq<Extended>, o: Options)
    requires e.Laws() && Accepted(z, o)
    ensures RowOf(e, z, o).Valid()
  {
    var r := RowOf(e, z, o);
    if o.temperature > 0.0 {
      assert 1.0 / o.temperature > 0.0;
    }
  }

  /** The tempered logit and its noise. */
  function Score(r: Row, m: real, noise: seq<real>, i: int): Extended
    requires |noise| == |r.z|
  {
    match r.At(i)
    case NegInf => NegInf
    case Fin(a) => Fin(r.Temper(m, a) + noise[i])
  }

  /** A probability's logarithm: exp(lp) of the whole is the part. */
  ghost predicate IsLogShare(e: Exponential, lp: real, part: real, whole: real) {
    whole > 0.0 && e.exp(lp) * whole == part
  }

  function Raw(e: Exponential, x: Extended): real {
    match x
    case NegInf => 0.0
    case Fin(a) => e.exp(a)
  }

  function RawTerms(r: Row): Vec { i => Raw(r.e, r.At(i)) }

  function WeightTerms(r: Row, m: real): Vec { i => r.Weight(m, r.At(i)) }

  function PTerms(r: Row, m: real, kth: Option<Extended>, v: Option<Extended>): Vec {
    i => if InP(r, kth, v, i) then r.Weight(m, r.At(i)) else 0.0
  }

  /** Token t under the definition, sampling: the first largest score of P, and its shares of the
      raw exponentials of U, of the tempered weights of U and of those of P. */
  ghost predicate IsDraw(r: Row, m: real, noise: seq<real>, kth: Option<Extended>, v: Option<Extended>, out: Outcome)
    requires |noise| == |r.z|
  {
    && out.Drawn? && InP(r, kth, v, out.token) && r.At(out.token).Fin?
    && (forall i :: InP(r, kth, v, i) ==> Ge(Score(r, m, noise, out.token), Score(r, m, noise, i)))
    && (forall i :: InP(r, kth, v, i) && i < out.token ==> Gt(Score(r, m, noise, out.token), Score(r, m, noise, i)))
    && out.logprob.Some? && out.tempered.Some? && out.sampling.Some?
    && IsLogShare(r.e, out.logprob.value, Raw(r.e, r.At(out.token)), Sum(0, |r.z|, RawTerms(r)))
    && IsLogShare(r.e, out.tempered.value, r.Weight(m, r.At(out.token)), Sum(0, |r.z|, WeightTerms(r, m)))
    && IsLogShare(r.e, out.sampling.value, r.Weight(m, r.At(out.token)), Sum(0, |r.z|, PTerms(r, m, kth, v)))
    && (!r.CutsK() && !r.CutsP() ==> out.sampling == out.tempered)
    && (r.tau == 1.0 ==> out.logprob == out.tempered)
  }

  /** Greedy: the lowest id of U with the largest logit, and its share of the raw exponentials. */
  ghost predicate IsGreedy(r: Row, m: real, out: Outcome) {
    && out.Drawn? && r.U(out.token) && r.At(out.token) == Fin(m)
    && (forall i :: r.U(i) && r.At(i) == Fin(m) ==> out.token <= i)
    && out.logprob.Some? && out.tempered == Some(0.0) && out.sampling == Some(0.0)
    && IsLogShare(r.e, out.logprob.value, Raw(r.e, Fin(m)), Sum(0, |r.z|, RawTerms(r)))
  }

  /** A row with no finite logit in U: its lowest id there, and no log-probability. */
  ghost predicate IsDegenerate(r: Row, out: Outcome) {
    && (forall i :: r.U(i) ==> r.At(i) == NegInf)
    && out.Drawn? && r.U(out.token) && (forall i :: r.U(i) ==> out.token <= i)
    && out.logprob == None && out.tempered == None && out.sampling == None
  }

  // ----- the draw in the options' own terms -----

  /** Id i takes part. */
  predicate TakesPart(z: seq<Extended>, o: Options, i: int) { 0 <= i < |z| && i !in o.masked }

  function LogitOf(z: seq<Extended>, o: Options, i: int): Extended { if TakesPart(z, o, i) then z[i] else NegInf }

  /** (z - m) / T, the quotient's factor at most f32's largest number. */
  function Exponent(o: Options, m: real, a: real): real
    requires o.temperature > 0.0
  {
    if 1.0 / o.temperature < LARGEST then (a - m) / o.temperature else (a - m) * LARGEST
  }

  function TemperedExp(e: Exponential, z: seq<Extended>, o: Options, m: real): Vec
    requires o.temperature > 0.0
  {
    i => match LogitOf(z, o, i)
         case NegInf => 0.0
         case Fin(a) => e.exp(Exponent(o, m, a))
  }

  function PlainExp(e: Exponential, z: seq<Extended>, o: Options): Vec {
    i => match LogitOf(z, o, i)
         case NegInf => 0.0
         case Fin(a) => e.exp(a)
  }

  predicate KeptByK(z: seq<Extended>, o: Options, kth: Option<Extended>, i: int) {
    TakesPart(z, o, i) && (kth.Some? ==> Ge(z[i], kth.value))
  }

  predicate KeptByBoth(z: seq<Extended>, o: Options, kth: Option<Extended>, v: Option<Extended>, i: int) {
    KeptByK(z, o, kth, i) && (v.Some? ==> Ge(z[i], v.value))
  }

  /** The tempered exponentials of what top-k keeps, from the logit x up. */
  function ExpFrom(e: Exponential, z: seq<Extended>, o: Options, m: real, kth: Option<Extended>, x: Extended): Vec
    requires o.temperature > 0.0
  {
    i => if KeptByK(z, o, kth, i) && Ge(z[i], x) then TemperedExp(e, z, o, m)(i) else 0.0
  }

  function ExpKept(e: Exponential, z: seq<Extended>, o: Options, m: real, kth: Option<Extended>,
                   v: Option<Extended>): Vec
    requires o.temperature > 0.0
  {
    i => if KeptByBoth(z, o, kth, v, i) then TemperedExp(e, z, o, m)(i) else 0.0
  }

  function Noisy(z: seq<Extended>, o: Options, m: real, noise: seq<real>, i: int): Extended
    requires o.temperature > 0.0 && |noise| == |z|
  {
    match LogitOf(z, o, i)
    case NegInf => NegInf
    case Fin(a) => Fin(Exponent(o, m, a) + noise[i])
  }

  function OnesAbove(z: seq<Extended>, o: Options, x: Extended): Vec {
    i => if TakesPart(z, o, i) && Gt(z[i], x) then 1.0 else 0.0
  }

  function OnesFrom(z: seq<Extended>, o: Options, x: Extended): Vec {
    i => if TakesPart(z, o, i) && Ge(z[i], x) then 1.0 else 0.0
  }

  /** m is the largest logit that takes part. */
  ghost predicate LargestIs(z: seq<Extended>, o: Options, m: real) {
    && (exists i :: TakesPart(z, o, i) && z[i] == Fin(m))
    && (forall i :: TakesPart(z, o, i) ==> Ge(Fin(m), z[i]))
  }

  /** kth is the k-th largest logit and v top-p's: the largest whose mass from it up reaches p. */
  ghost predicate CutsAre(e: Exponential, z: seq<Extended>, o: Options, m: real, kth: Option<Extended>,
                          v: Option<Extended>)
    requires o.temperature > 0.0
  {
    && (kth.Some? <==> 0 < o.topK < |z| - |o.masked|)
    && (kth.Some? ==>
          Sum(0, |z|, OnesAbove(z, o, kth.value)) < o.topK as real <= Sum(0, |z|, OnesFrom(z, o, kth.value)))
    && (v.Some? <==> o.topP < 1.0)
    && (v.Some? ==>
          var whole := Sum(0, |z|, ExpFrom(e, z, o, m, kth, NegInf));
          && (exists i :: KeptByK(z, o, kth, i) && z[i] == v.value)
          && Sum(0, |z|, ExpFrom(e, z, o, m, kth, v.value)) >= o.topP * whole
          && forall i :: KeptByK(z, o, kth, i) && Gt(z[i], v.value) ==>
               Sum(0, |z|, ExpFrom(e, z, o, m, kth, z[i])) < o.topP * whole)
  }

  /** The token is the first with the largest (z - m) / T + g of the ids both cuts keep, and its three
      log-probabilities are the logarithms of its shares. */
  ghost predicate DrawnAs(e: Exponential, z: seq<Extended>, o: Options, m: real, noise: seq<real>,
                          kth: Option<Extended>, v: Option<Extended>, out: Outcome)
    requires o.temperature > 0.0 && |noise| == |z|
  {
    && out.Drawn? && KeptByBoth(z, o, kth, v, out.token) && z[out.token].Fin?
    && (forall i :: KeptByBoth(z, o, kth, v, i) ==> Ge(Noisy(z, o, m, noise, out.token), Noisy(z, o, m, noise, i)))
    && (forall i :: KeptByBoth(z, o, kth, v, i) && i < out.token ==>
          Gt(Noisy(z, o, m, noise, out.token), Noisy(z, o, m, noise, i)))
    && out.logprob.Some? && out.tempered.Some? && out.sampling.Some?
    && IsLogShare(e, out.logprob.value, e.exp(z[out.token].val), Sum(0, |z|, PlainExp(e, z, o)))
    && IsLogShare(e, out.tempered.value, e.exp(Exponent(o, m, z[out.token].val)), Sum(0, |z|, TemperedExp(e, z, o, m)))
    && IsLogShare(e, out.sampling.value, e.exp(Exponent(o, m, z[out.token].val)),
                  Sum(0, |z|, ExpKept(e, z, o, m, kth, v)))
  }

  /** Greedy: the first id with the largest logit. */
  ghost predicate TakenGreedily(e: Exponential, z: seq<Extended>, o: Options, m: real, out: Outcome) {
    && out.Drawn? && TakesPart(z, o, out.token) && z[out.token] == Fin(m)
    && (forall i :: TakesPart(z, o, i) && z[i] == Fin(m) ==> out.token <= i)
    && out.logprob.Some? && out.tempered == Some(0.0) && out.sampling == Some(0.0)
    && IsLogShare(e, out.logprob.value, e.exp(m), Sum(0, |z|, PlainExp(e, z, o)))
  }

  /** No logit is finite: the first id that takes part, and no log-probability. */
  ghost predicate TakenForWant(z: seq<Extended>, o: Options, out: Outcome) {
    && (forall i :: TakesPart(z, o, i) ==> z[i] == NegInf)
    && out.Drawn? && TakesPart(z, o, out.token) && (forall i :: TakesPart(z, o, i) ==> out.token <= i)
    && out.logprob == None && out.tempered == None && out.sampling == None
  }

  /** The row's ids and logits are the options' own. */
  lemma RowReads(e: Exponential, z: seq<Extended>, o: Options)
    ensures var r := RowOf(e, z, o);
            && r.e == e && |r.z| == |z| && r.topK == o.topK && r.topP == o.topP
            && forall i :: (r.U(i) <==> TakesPart(z, o, i)) && r.At(i) == LogitOf(z, o, i)
  {
  }

  /** Its tempered logits are (z - m) / T. */
  lemma RowTempers(e: Exponential, z: seq<Extended>, o: Options, m: real, a: real)
    requires o.temperature > 0.0
    ensures RowOf(e, z, o).Temper(m, a) == Exponent(o, m, a)
  {
    var d, t := a - m, o.temperature;
    assert d / t == d * (1.0 / t);
  }

  lemma RowTerms(e: Exponential, z: seq<Extended>, o: Options, m: real, kth: Option<Extended>, v: Option<Extended>)
    requires o.temperature > 0.0
    ensures var r := RowOf(e, z, o);
            && Sum(0, |z|, RawTerms(r)) == Sum(0, |z|, PlainExp(e, z, o))
            && Sum(0, |z|, WeightTerms(r, m)) == Sum(0, |z|, TemperedExp(e, z, o, m))
            && Sum(0, |z|, PTerms(r, m, kth, v)) == Sum(0, |z|, ExpKept(e, z, o, m, kth, v))
            && forall x :: Mass(r, m, kth, x) == Sum(0, |z|, ExpFrom(e, z, o, m, kth, x))
  {
    hide Sum, Row.Temper, Exponent, RowOf;
    var r := RowOf(e, z, o);
    RowReads(e, z, o);
    forall i: int
      ensures r.Weight(m, r.At(i)) == TemperedExp(e, z, o, m)(i) && RawTerms(r)(i) == PlainExp(e, z, o)(i)
    {
      if r.At(i).Fin? {
        RowTempers(e, z, o, m, r.At(i).val);
      }
    }
    SumEqual(0, |z|, RawTerms(r), PlainExp(e, z, o));
    SumEqual(0, |z|, WeightTerms(r, m), TemperedExp(e, z, o, m));
    SumEqual(0, |z|, PTerms(r, m, kth, v), ExpKept(e, z, o, m, kth, v));
    forall x
      ensures Mass(r, m, kth, x) == Sum(0, |z|, ExpFrom(e, z, o, m, kth, x))
    {
      SumEqual(0, |z|, MassTerms(r, m, kth, x), ExpFrom(e, z, o, m, kth, x));
    }
  }

  lemma RowCuts(e: Exponential, z: seq<Extended>, o: Options, m: real, kth: Option<Extended>, v: Option<Extended>)
    requires o.temperature > 0.0 && IsCut(RowOf(e, z, o), m, kth, v)
    ensures CutsAre(e, z, o, m, kth, v)
  {
    hide Sum, Count, RowOf, IsKthLargest, IsNucleus, ExpFrom, OnesAbove, OnesFrom;
    RowReads(e, z, o);
    RowMasks(e, z, o);
    if kth.Some? {
      RowKth(e, z, o, kth.value);
    }
    if v.Some? {
      RowNucleus(e, z, o, m, kth, v.value);
    }
  }

  lemma RowKth(e: Exponential, z: seq<Extended>, o: Options, x: Extended)
    requires IsKthLargest(RowOf(e, z, o), x)
    ensures Sum(0, |z|, OnesAbove(z, o, x)) < o.topK as real <= Sum(0, |z|, OnesFrom(z, o, x))
  {
    hide Sum, RowOf;
    var r := RowOf(e, z, o);
    RowReads(e, z, o);
    SumEqual(0, |z|, Ones(IdsAbove(r, x)), OnesAbove(z, o, x));
    SumEqual(0, |z|, Ones(IdsFrom(r, x)), OnesFrom(z, o, x));
  }

  lemma RowNucleus(e: Exponential, z: seq<Extended>, o: Options, m: real, kth: Option<Extended>, x: Extended)
    requires o.temperature > 0.0 && IsNucleus(RowOf(e, z, o), m, kth, x)
    ensures var whole := Sum(0, |z|, ExpFrom(e, z, o, m, kth, NegInf));
            && (exists i :: KeptByK(z, o, kth, i) && z[i] == x)
            && Sum(0, |z|, ExpFrom(e, z, o, m, kth, x)) >= o.topP * whole
            && forall i :: KeptByK(z, o, kth, i) && Gt(z[i], x) ==>
                 Sum(0, |z|, ExpFrom(e, z, o, m, kth, z[i])) < o.topP * whole
  {
    hide Sum, Mass, RowOf, ExpFrom;
    var r := RowOf(e, z, o);
    RowReads(e, z, o);
    RowTerms(e, z, o, m, kth, None);
    var i :| InK(r, kth, i) && r.At(i) == x;
    assert KeptByK(z, o, kth, i) && z[i] == x;
    forall j | KeptByK(z, o, kth, j) && Gt(z[j], x)
      ensures Mass(r, m, kth, z[j]) < o.topP * Mass(r, m, kth, NegInf)
    {
      assert InK(r, kth, j) && r.At(j) == z[j];
    }
  }

  lemma RowMasks(e: Exponential, z: seq<Extended>, o: Options)
    ensures RowOf(e, z, o).masked == o.masked
  {
  }

  lemma RowDraws(e: Exponential, z: seq<Extended>, o: Options, m: real, noise: seq<real>, kth: Option<Extended>,
                 v: Option<Extended>, out: Outcome)
    requires o.temperature > 0.0 && |noise| == |z| && |RowOf(e, z, o).z| == |z|
    requires IsDraw(RowOf(e, z, o), m, noise, kth, v, out)
    ensures DrawnAs(e, z, o, m, noise, kth, v, out)
  {
    hide Sum, RowOf, RawTerms, WeightTerms, PTerms, TemperedExp, PlainExp, ExpKept, IsLogShare, Row.Temper, Exponent;
    var r := RowOf(e, z, o);
    RowReads(e, z, o);
    RowTerms(e, z, o, m, kth, v);
    forall i: int
      ensures 0 <= i < |z| ==> Score(r, m, noise, i) == Noisy(z, o, m, noise, i)
      ensures InP(r, kth, v, i) <==> KeptByBoth(z, o, kth, v, i)
    {
      if r.At(i).Fin? {
        RowTempers(e, z, o, m, r.At(i).val);
      }
    }
    RowTempers(e, z, o, m, z[out.token].val);
  }

  lemma RowGreedy(e: Exponential, z: seq<Extended>, o: Options, m: real, out: Outcome)
    requires IsGreedy(RowOf(e, z, o), m, out)
    ensures TakenGreedily(e, z, o, m, out)
  {
    hide Sum, IsLogShare;
    RowReads(e, z, o);
    SumEqual(0, |z|, RawTerms(RowOf(e, z, o)), PlainExp(e, z, o));
  }

  lemma RowForWant(e: Exponential, z: seq<Extended>, o: Options, out: Outcome)
    requires IsDegenerate(RowOf(e, z, o), out)
    ensures TakenForWant(z, o, out)
  {
    var r := RowOf(e, z, o);
    RowReads(e, z, o);
    forall i | TakesPart(z, o, i)
      ensures z[i] == NegInf && out.token <= i
    {
      assert r.U(i) && r.At(i) == z[i];
    }
  }

  lemma RowMax(e: Exponential, z: seq<Extended>, o: Options, m: real)
    requires RowOf(e, z, o).IsMax(m)
    ensures LargestIs(z, o, m)
  {
    var r := RowOf(e, z, o);
    RowReads(e, z, o);
    var i :| r.U(i) && r.At(i) == Fin(m);
    assert TakesPart(z, o, i) && z[i] == Fin(m);
    forall j | TakesPart(z, o, j)
      ensures Ge(Fin(m), z[j])
    {
      assert r.U(j) && r.At(j) == z[j];
    }
  }

  /** `sample` on a row, noise the Gumbel variates of its ids. */
  method Draw(e: Exponential, z: seq<Extended>, o: Options, noise: seq<real>)
    returns (out: Outcome, ghost m: real, ghost kth: Option<Extended>, ghost v: Option<Extended>)
    requires e.Laws() && |noise| == |z|
    ensures out.Rejected? <==> !Accepted(z, o)
    ensures Accepted(z, o) ==>
      var r := RowOf(e, z, o);
      || IsDegenerate(r, out)
      || (r.IsMax(m) && if o.temperature == 0.0 then IsGreedy(r, m, out)
                        else IsCut(r, m, kth, v) && IsDraw(r, m, noise, kth, v, out))
    ensures Accepted(z, o) ==>
      || TakenForWant(z, o, out)
      || (LargestIs(z, o, m) && if o.temperature == 0.0 then TakenGreedily(e, z, o, m, out)
                                else CutsAre(e, z, o, m, kth, v) && DrawnAs(e, z, o, m, noise, kth, v, out))
  {
    hide Sum, IsCut, IsDegenerate, IsGreedy, IsDraw, Sorted, Row.IsMax, TakenForWant, LargestIs, TakenGreedily, CutsAre,
         DrawnAs;
    m, kth, v := 0.0, None, None;
    if !Accepted(z, o) {
      return Rejected, m, kth, v;
    }
    var r := RowOf(e, z, o);
    RowValid(e, z, o);
    var firstUnmasked := FirstUnmasked(r);
    var largest := Largest(r);
    match largest {
      case NegInf =>
        out := Drawn(firstUnmasked, None, None, None);
        assert IsDegenerate(r, out) by { DegenerateIs(r, out); }
        RowForWant(e, z, o, out);
      case Fin(top) =>
        m := top;
        MaxIs(r, top);
        RowMax(e, z, o, top);
        if o.temperature == 0.0 {
          out := Greedy(r, top);
          RowGreedy(e, z, o, top, out);
        } else {
          out, kth, v := Sampled(r, top, noise);
          RowCuts(e, z, o, top, kth, v);
          RowDraws(e, z, o, top, noise, kth, v, out);
        }
    }
  }

  lemma DegenerateIs(r: Row, out: Outcome)
    requires forall i :: 0 <= i < |r.z| ==> Ge(NegInf, r.At(i))
    requires out.Drawn? && r.U(out.token) && forall i :: r.U(i) ==> out.token <= i
    requires out.logprob == None && out.tempered == None && out.sampling == None
    ensures IsDegenerate(r, out)
  {
  }

  lemma MaxIs(r: Row, m: real)
    requires exists i :: 0 <= i < |r.z| && r.At(i) == Fin(m)
    requires forall i :: 0 <= i < |r.z| ==> Ge(Fin(m), r.At(i))
    ensures r.IsMax(m)
  {
  }

  method Largest(r: Row) returns (x: Extended)
    requires |r.z| > 0
    ensures exists i :: 0 <= i < |r.z| && r.At(i) == x
    ensures forall i :: 0 <= i < |r.z| ==> Ge(x, r.At(i))
  {
    var zm := Zm(r);
    var t := Argmax(zm);
    x := zm[t];
    assert forall i :: 0 <= i < |r.z| ==> zm[i] == r.At(i);
  }

  lemma SomeUnmasked(r: Row)
    requires r.Valid()
    ensures exists i :: 0 <= i < |r.z| && r.U(i)
  {
    hide Sum;
    CountUnmasked(r, |r.z|);
    AllMasked(r);
    if forall i :: 0 <= i < |r.z| ==> !r.U(i) {
      SumZero(0, |r.z|, Ones(IdsFrom(r, NegInf)));
    }
  }

  method FirstUnmasked(r: Row) returns (t: nat)
    requires r.Valid()
    ensures r.U(t) && forall i :: r.U(i) ==> t <= i
  {
    SomeUnmasked(r);
    t := 0;
    while t in r.masked
      invariant t <= |r.z| && forall i :: 0 <= i < t ==> !r.U(i)
      invariant exists i :: 0 <= i < |r.z| && r.U(i)
      decreases |r.z| - t
    {
      t := t + 1;
    }
  }

  lemma WholePositive(r: Row, f: Vec, t: int)
    requires 0 <= t < |r.z| && f(t) > 0.0 && forall i :: 0 <= i < |r.z| ==> f(i) >= 0.0
    ensures Sum(0, |r.z|, f) > 0.0
  {
    SumAtLeast(0, |r.z|, t, f);
  }

  lemma RawPositive(r: Row, t: int)
    requires r.Valid() && 0 <= t < |r.z| && r.At(t).Fin?
    ensures Sum(0, |r.z|, RawTerms(r)) > 0.0
  {
    WholePositive(r, RawTerms(r), t);
  }

  method Greedy(r: Row, m: real) returns (out: Outcome)
    requires r.Valid() && r.IsMax(m)
    ensures out.Drawn? && IsGreedy(r, m, out)
  {
    hide Sum;
    var zm := Zm(r);
    var t := Argmax(zm);
    ghost var top :| r.U(top) && r.At(top) == Fin(m);
    assert Ge(zm[t], zm[top]) && zm[t] == r.At(t) && Ge(Fin(m), r.At(t));
    RawPositive(r, t);
    var lse := r.e.Log(Sum(0, |r.z|, RawTerms(r)));
    out := Drawn(t, Some(r.z[t].val - lse.val), Some(0.0), Some(0.0));
    ExpOfDifference(r.e, m, Sum(0, |r.z|, RawTerms(r)));
    forall i | r.U(i) && r.At(i) == Fin(m)
      ensures t <= i
    {
      assert zm[i] == Fin(m);
    }
  }

  /** s - ln of the whole is the log of exp(s)'s share. */
  lemma ShareOf(e: Exponential, s: real, whole: real)
    requires e.Laws() && whole > 0.0
    ensures IsLogShare(e, s - e.ln(whole), e.exp(s), whole)
  {
    ExpOfDifference(e, s, whole);
  }

  /** The raw share, from the exponentials taken off the largest logit. */
  lemma RawShare(r: Row, m: real, t: int)
    requires r.Valid() && 0 <= t < |r.z| && r.At(t).Fin?
    ensures Sum(0, |r.z|, WeightTerms(r.(tau := 1.0), m)) > 0.0
    ensures IsLogShare(r.e, r.At(t).val - m - r.e.ln(Sum(0, |r.z|, WeightTerms(r.(tau := 1.0), m))),
                       Raw(r.e, r.At(t)), Sum(0, |r.z|, RawTerms(r)))
  {
    hide Sum;
    var r1 := r.(tau := 1.0);
    var f, g := WeightTerms(r1, m), RawTerms(r);
    forall i | 0 <= i < |r.z|
      ensures g(i) == r.e.exp(m) * f(i) && f(i) >= 0.0
    {
      assert r1.At(i) == r.At(i);
      if r.At(i).Fin? {
        assert r1.Temper(m, r.At(i).val) == r.At(i).val - m;
        ExpShift(r.e, r.At(i).val, m);
      }
    }
    SumScale(0, |r.z|, r.e.exp(m), f, g);
    assert r1.At(t) == r.At(t);
    WholePositive(r, f, t);
    var s1 := Sum(0, |r.z|, f);
    var lp := r.At(t).val - m - r.e.ln(s1);
    ShareOf(r.e, r.At(t).val - m, s1);
    ExpShift(r.e, r.At(t).val, m);
    ScaledShare(r.e.exp(lp), s1, r.e.exp(r.At(t).val - m), r.e.exp(m));
    assert r.e.exp(m) > 0.0;
  }

  lemma ScaledShare(p: real, whole: real, part: real, scale: real)
    requires p * whole == part && whole > 0.0 && scale > 0.0
    ensures p * (scale * whole) == part * scale && scale * whole > 0.0
  {
    assert p * (scale * whole) == (p * whole) * scale;
  }

  /** The tempered draw over the kept ids. */
  method Sampled(r: Row, m: real, noise: seq<real>)
    returns (out: Outcome, ghost kth: Option<Extended>, ghost v: Option<Extended>)
    requires r.Valid() && r.IsMax(m) && |noise| == |r.z|
    ensures out.Drawn? && IsCut(r, m, kth, v) && IsDraw(r, m, noise, kth, v, out)
  {
    hide Sum, IsCut, IsDraw, WeightTerms, PTerms, RawTerms, Score, Row.Temper;
    var threshold;
    threshold, kth, v := Cut(r, m, Tree);
    var t := FirstKept(r, m, noise, threshold);
    var s1 := Sum(0, |r.z|, WeightTerms(r.(tau := 1.0), m));
    var total := Sum(0, |r.z|, WeightTerms(r, m));
    var totalKept := if threshold.Some? then Sum(0, |r.z|, KeptTerms(r, m, threshold)) else total;
    RawShare(r, m, t);
    KeptIsP(r, m, threshold, kth, v);
    TotalsPositive(r, m, kth, v, t);
    var d := r.At(t).val - m;
    var s := r.Temper(m, r.At(t).val);
    ShareOf(r.e, s, total);
    ShareOf(r.e, s, totalKept);
    out := Drawn(t, Some(d - r.e.ln(s1)), Some(s - r.e.ln(total)), Some(s - r.e.ln(totalKept)));
    DrawIs(r, m, noise, threshold, kth, v, out);
  }

  predicate Kept(r: Row, threshold: Option<Extended>, i: int) {
    r.U(i) && (threshold.Some? ==> Ge(r.At(i), threshold.value))
  }

  function KeptTerms(r: Row, m: real, threshold: Option<Extended>): Vec {
    i => if Kept(r, threshold, i) then r.Weight(m, r.At(i)) else 0.0
  }

  /** The first largest score, those not kept at -inf: the largest logit's is finite and kept. */
  method FirstKept(r: Row, m: real, noise: seq<real>, threshold: Option<Extended>) returns (t: nat)
    requires r.IsMax(m) && |noise| == |r.z| && (threshold.Some? ==> Ge(Fin(m), threshold.value))
    ensures Kept(r, threshold, t) && r.At(t).Fin?
    ensures forall i :: Kept(r, threshold, i) ==> Ge(Score(r, m, noise, t), Score(r, m, noise, i))
    ensures forall i :: Kept(r, threshold, i) && i < t ==> Gt(Score(r, m, noise, t), Score(r, m, noise, i))
  {
    var score :=
      seq(|r.z|, i requires 0 <= i < |r.z| => if Kept(r, threshold, i) then Score(r, m, noise, i) else NegInf);
    ghost var top :| r.U(top) && r.At(top) == Fin(m);
    assert score[top] == Score(r, m, noise, top);
    t := Argmax(score);
    assert Ge(score[t], score[top]);
    forall i | Kept(r, threshold, i)
      ensures score[i] == Score(r, m, noise, i)
    {
    }
  }

  lemma KeptIsP(r: Row, m: real, threshold: Option<Extended>, kth: Option<Extended>, v: Option<Extended>)
    requires forall i :: r.U(i) ==> (InP(r, kth, v, i) <==> (threshold.Some? ==> Ge(r.At(i), threshold.value)))
    ensures forall i :: Kept(r, threshold, i) <==> InP(r, kth, v, i)
    ensures Sum(0, |r.z|, KeptTerms(r, m, threshold)) == Sum(0, |r.z|, PTerms(r, m, kth, v))
    ensures threshold.None? ==> Sum(0, |r.z|, WeightTerms(r, m)) == Sum(0, |r.z|, PTerms(r, m, kth, v))
  {
    hide Sum;
    SumEqual(0, |r.z|, KeptTerms(r, m, threshold), PTerms(r, m, kth, v));
    if threshold.None? {
      SumEqual(0, |r.z|, WeightTerms(r, m), PTerms(r, m, kth, v));
    }
  }

  lemma TotalsPositive(r: Row, m: real, kth: Option<Extended>, v: Option<Extended>, t: int)
    requires r.Valid() && InP(r, kth, v, t) && r.At(t).Fin?
    ensures Sum(0, |r.z|, WeightTerms(r, m)) > 0.0 && Sum(0, |r.z|, PTerms(r, m, kth, v)) > 0.0
  {
    hide Sum;
    forall i | 0 <= i < |r.z|
      ensures WeightTerms(r, m)(i) >= 0.0 && PTerms(r, m, kth, v)(i) >= 0.0
    {
      WeightPositive(r, m, r.At(i));
    }
    WeightPositive(r, m, r.At(t));
    WholePositive(r, WeightTerms(r, m), t);
    WholePositive(r, PTerms(r, m, kth, v), t);
  }

  lemma DrawIs(r: Row, m: real, noise: seq<real>, threshold: Option<Extended>, kth: Option<Extended>,
               v: Option<Extended>, out: Outcome)
    requires |noise| == |r.z| && out.Drawn? && r.At(out.token).Fin? && Kept(r, threshold, out.token)
    requires forall i :: Kept(r, threshold, i) <==> InP(r, kth, v, i)
    requires threshold.None? <==> !r.CutsK() && !r.CutsP()
    requires forall i :: Kept(r, threshold, i) ==> Ge(Score(r, m, noise, out.token), Score(r, m, noise, i))
    requires forall i :: Kept(r, threshold, i) && i < out.token ==>
      Gt(Score(r, m, noise, out.token), Score(r, m, noise, i))
    requires var d := r.At(out.token).val - m;
      var total := Sum(0, |r.z|, WeightTerms(r, m));
      && out.logprob == Some(d - r.e.ln(Sum(0, |r.z|, WeightTerms(r.(tau := 1.0), m))))
      && out.tempered == Some(r.Temper(m, r.At(out.token).val) - r.e.ln(total))
      && out.sampling.Some? && (threshold.None? ==> out.sampling == out.tempered)
    requires IsLogShare(r.e, out.logprob.value, Raw(r.e, r.At(out.token)), Sum(0, |r.z|, RawTerms(r)))
    requires IsLogShare(r.e, out.tempered.value, r.Weight(m, r.At(out.token)), Sum(0, |r.z|, WeightTerms(r, m)))
    requires IsLogShare(r.e, out.sampling.value, r.Weight(m, r.At(out.token)), Sum(0, |r.z|, PTerms(r, m, kth, v)))
    ensures IsDraw(r, m, noise, kth, v, out)
  {
    hide Sum, Score, IsLogShare, RawTerms, PTerms;
    if r.tau == 1.0 {
      assert r.(tau := 1.0) == r;
    }
  }
}
