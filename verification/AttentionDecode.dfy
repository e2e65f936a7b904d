/** Flash decoding: one query per sequence against a cache, the keys dealt to splits and, within a
    split, to simdgroups, each keeping its softmax online; the parts merged by their maxima and sums,
    first in the kernel, then over the splits. */
module AttentionDecode {
  import opened Sums
  import opened Vectors
  import opened Analysis
  import opened Integers
  import opened AttentionBand
  import opened AttentionContract
  import opened AttentionForward

  /** A decoding call. Query head n = b Hq + h reads the cache slice n / group; `s` is the cache's
      capacity, `left` the window before the query, `lengths` the keys each sequence holds; hkv slices
      make a sequence. */
  datatype Decode = Decode(e: Exponential, slices: nat, group: nat, hkv: nat, s: nat, d: nat, scale: real,
                           left: Option<nat>, lengths: Option<int -> int>, q: Mat, k: Tensor, v: Tensor) {

    ghost predicate Valid() { e.Laws() && group > 0 && hkv > 0 && s <= I32_MAX }

    /** One past the sequence's last key: its length, narrowed to 32 bits and kept within the
        cache. */
    function Hi(b: int): nat {
      if lengths.Some? then MaxInt(MinInt(Wrap32(lengths.value(b)), s), 0) else s
    }

    /** The first key the window leaves the query. */
    function Lo(b: int): nat {
      if left.Some? then MaxInt(Hi(b) - (1 + MinInt(left.value, I32_MAX - 1)), 0) else 0
    }

    function Score(n: int, j: int): real
      requires group > 0
    {
      scale * Dot(d, Row(q, n), Row(Cached(k, n), j))
    }

    function Cached(t: Tensor, n: int): Mat
      requires group > 0
    {
      (j, x) => t(n / group, j, x)
    }

    /** exp(score) of every key, and the values weighed by it. */
    function W(n: int): Vec
      requires group > 0
    {
      j => e.exp(Score(n, j))
    }

    function R(n: int, x: int): Vec
      requires group > 0
    {
      j => e.exp(Score(n, j)) * v(n / group, j, x)
    }

    /** The softmax average of the values over the keys lo..hi, 0 for none. */
    function Average(n: int, x: int, lo: int, hi: int): real
      requires group > 0
    {
      var z := Sum(lo, hi, W(n));
      if z == 0.0 then 0.0 else Sum(lo, hi, R(n, x)) / z
    }
  }

  // ----- a simdgroup's keys -----

  /** Key j is one of simdgroup sg's, of `of` simdgroups. */
  predicate OnStrand(j0: int, of: int, sg: int, j: int)
    requires of > 0
  {
    (j - j0) % of == sg
  }

  /** What a simdgroup holds of a head: the keys of its strand in j0..upto. */
  ghost predicate StrandTracks(c: Decode, n: int, j0: int, upto: int, sg: int, of: int, m: real, s: real, o: Vec)
    requires c.Valid() && of > 0
  {
    && s * c.e.exp(m) == Sum(j0, upto, Strand(j0, of, sg, c.W(n)))
    && (forall x :: 0 <= x < c.d ==> o(x) * c.e.exp(m) == Sum(j0, upto, Strand(j0, of, sg, c.R(n, x))))
    && LOWEST <= m
    && (forall j :: j0 <= j < upto && OnStrand(j0, of, sg, j) ==> c.Score(n, j) <= m)
  }

  /** The scaled query against a key, each lane over its own d / 32 dimensions, the lanes' parts
      added by the simdgroup. */
  function LanePart(c: Decode, n: int, j: int, per: int): Vec
    requires c.group > 0
  {
    lane => Sum(lane * per, (lane + 1) * per, LaneProducts(c, n, j))
  }

  function LaneProducts(c: Decode, n: int, j: int): Vec
    requires c.group > 0
  {
    x => (c.q(n, x) * c.scale) * c.k(n / c.group, j, x)
  }

  /** The lanes' sum is the score. */
  lemma LanesScore(c: Decode, n: int, j: int, per: nat)
    requires c.group > 0 && c.d == LANES * per
    ensures Sum(0, LANES, LanePart(c, n, j, per)) == c.Score(n, j)
  {
    hide Sum, LaneProducts;
    var bounds: int -> int := lane => lane * per;
    forall lane | 0 <= lane < LANES
      ensures bounds(lane) <= bounds(lane + 1)
    {
      ProductGrows(lane, lane + 1, per);
    }
    SumPieces(LANES, bounds, LaneProducts(c, n, j), LanePart(c, n, j, per));
    ProductsScore(c, n, j);
  }

  lemma ProductsScore(c: Decode, n: int, j: int)
    requires c.group > 0
    ensures Sum(0, c.d, LaneProducts(c, n, j)) == c.Score(n, j)
  {
    hide Sum;
    forall x | 0 <= x < c.d
      ensures LaneProducts(c, n, j)(x) == c.scale * Times(Row(c.q, n), Row(c.Cached(c.k, n), j))(x)
    {
      Swap(c.q(n, x), c.scale, c.k(n / c.group, j, x));
    }
    SumScale(0, c.d, c.scale, Times(Row(c.q, n), Row(c.Cached(c.k, n), j)), LaneProducts(c, n, j));
  }

  lemma Swap(a: real, b: real, f: real)
    ensures (a * b) * f == b * (a * f)
  {
  }

  /** The state of one head after one more key. */
  function NextOutput(c: Decode, n: int, j: int, o: Vec, alpha: real, p: real): Vec
    requires c.group > 0
  {
    x => o(x) * alpha + p * c.v(n / c.group, j, x)
  }

  /** One key of the strand, for one head. */
  method KeyStep(c: Decode, n: int, j: int, ghost j0: int, ghost end: int, ghost sg: int, ghost of: int, m: real,
                 s: real, o: Vec)
    returns (nm: real, ns: real, no: Vec)
    requires c.Valid() && c.d % LANES == 0
    requires 0 <= sg < of && j0 <= j < end && OnStrand(j0, of, sg, j)
    requires StrandTracks(c, n, j0, j, sg, of, m, s, o)
    ensures StrandTracks(c, n, j0, MinInt(j + of, end), sg, of, nm, ns, no)
  {
    hide Sum, StrandTracks, Decode.Score, OnStrand, LanePart;
    var dot := Sum(0, LANES, LanePart(c, n, j, c.d / LANES));
    LanesScore(c, n, j, c.d / LANES);
    nm := Max(m, dot);
    var alpha, p := c.e.exp(m - nm), c.e.exp(dot - nm);
    ns := s * alpha + p;
    no := NextOutput(c, n, j, o, alpha, p);
    KeyTracks(c, n, j, j0, end, sg, of, m, s, o, nm, alpha, p);
  }

  lemma KeyTracks(c: Decode, n: int, j: int, j0: int, end: int, sg: int, of: int, m: real, s: real, o: Vec,
                  nm: real, alpha: real, p: real)
    requires c.Valid() && 0 <= sg < of && j0 <= j < end && OnStrand(j0, of, sg, j)
    requires StrandTracks(c, n, j0, j, sg, of, m, s, o)
    requires nm == Max(m, c.Score(n, j)) && alpha == c.e.exp(m - nm) && p == c.e.exp(c.Score(n, j) - nm)
    ensures StrandTracks(c, n, j0, MinInt(j + of, end), sg, of, nm, s * alpha + p, NextOutput(c, n, j, o, alpha, p))
  {
    hide Sum, Decode.Score, Strand;
    var f, nf := c.e.exp(m), c.e.exp(nm);
    ExpShift(c.e, m, nm);
    ExpShift(c.e, c.Score(n, j), nm);
    StrandStep(j0, of, sg, c.W(n), j, end);
    Rescaled(s, alpha, p, f, nf);
    forall x | 0 <= x < c.d
      ensures NextOutput(c, n, j, o, alpha, p)(x) * nf
           == Sum(j0, MinInt(j + of, end), Strand(j0, of, sg, c.R(n, x)))
    {
      StrandStep(j0, of, sg, c.R(n, x), j, end);
      var value := c.v(n / c.group, j, x);
      Rescaled(o(x), alpha, p * value, f, nf);
      ProductOf(p, value, nf, c.e.exp(c.Score(n, j)));
    }
    StrandCovered(c, n, j, j0, end, sg, of, m, nm);
  }

  /** Between a key of the strand and the next lies no other, so the new maximum covers them. */
  lemma StrandCovered(c: Decode, n: int, j: int, j0: int, end: int, sg: int, of: int, m: real, nm: real)
    requires c.Valid() && 0 <= sg < of && j0 <= j < end && OnStrand(j0, of, sg, j)
    requires m <= nm && c.Score(n, j) <= nm
    requires forall i :: j0 <= i < j && OnStrand(j0, of, sg, i) ==> c.Score(n, i) <= m
    ensures forall i :: j0 <= i < MinInt(j + of, end) && OnStrand(j0, of, sg, i) ==> c.Score(n, i) <= nm
  {
    hide Decode.Score;
    forall i | j0 <= i < MinInt(j + of, end) && OnStrand(j0, of, sg, i)
      ensures c.Score(n, i) <= nm
    {
      if i > j {
        StrandGap(j - j0, i - j0, of, sg);
      }
    }
  }

  lemma ProductOf(p: real, value: real, f: real, w: real)
    requires p * f == w
    ensures (p * value) * f == w * value
  {
    assert (p * value) * f == (p * f) * value;
  }

  /** The first head of a slice and those after it: the group's query heads. */
  function GroupHead(c: Decode, y: int, g: int): int { y * c.group + g }

  /** A simdgroup's loop: every `of`-th key of the split, each key and value row once for the
      group's heads. */
  method Simdgroup(c: Decode, y: int, j0: nat, j1: int, sg: nat, of: nat)
    returns (m: seq<real>, s: seq<real>, o: seq<Vec>)
    requires c.Valid() && c.d % LANES == 0 && sg < of
    ensures |m| == |s| == |o| == c.group
    ensures forall g :: 0 <= g < c.group ==>
              StrandTracks(c, GroupHead(c, y, g), j0, MaxInt(j0, j1), sg, of, m[g], s[g], o[g])
  {
    m, s, o := seq(c.group, _ => LOWEST), seq(c.group, _ => 0.0), seq(c.group, _ => x => 0.0);
    var j := j0 + sg;
    ghost var end := MaxInt(j0, j1);
    forall g | 0 <= g < c.group
      ensures StrandTracks(c, GroupHead(c, y, g), j0, MinInt(j, end), sg, of, m[g], s[g], o[g])
    {
      StrandBegins(c, GroupHead(c, y, g), j0, MinInt(j, end), sg, of, o[g]);
    }
    SmallRemainder(sg, of);
    assert OnStrand(j0, of, sg, j);
    hide StrandTracks, OnStrand;
    while j < j1
      invariant j0 <= j && OnStrand(j0, of, sg, j)
      invariant |m| == |s| == |o| == c.group
      invariant forall g :: 0 <= g < c.group ==>
                  StrandTracks(c, GroupHead(c, y, g), j0, MinInt(j, end), sg, of, m[g], s[g], o[g])
    {
      var g := 0;
      while g < c.group
        invariant 0 <= g <= c.group
        invariant |m| == |s| == |o| == c.group
        invariant forall h :: 0 <= h < c.group ==>
                    StrandTracks(c, GroupHead(c, y, h), j0, if h < g then MinInt(j + of, end) else j, sg, of, m[h],
                                 s[h], o[h])
      {
        var nm, ns, no := KeyStep(c, GroupHead(c, y, g), j, j0, end, sg, of, m[g], s[g], o[g]);
        m, s, o := m[g := nm], s[g := ns], o[g := no];
        g := g + 1;
      }
      NextOnStrand(j0, of, sg, j);
      j := j + of;
    }
  }

  lemma NextOnStrand(j0: int, of: int, sg: int, j: int)
    requires of > 0 && OnStrand(j0, of, sg, j)
    ensures OnStrand(j0, of, sg, j + of)
  {
    DivUnique(j + of - j0, of, (j - j0) / of + 1, sg);
  }

  lemma StrandBegins(c: Decode, n: int, j0: int, upto: int, sg: int, of: int, o: Vec)
    requires c.Valid() && 0 <= sg < of && j0 <= upto <= j0 + sg && forall x :: o(x) == 0.0
    ensures StrandTracks(c, n, j0, upto, sg, of, LOWEST, 0.0, o)
  {
    hide Sum, Strand;
    StrandStart(j0, of, sg, c.W(n), upto);
    forall x
      ensures Sum(j0, upto, Strand(j0, of, sg, c.R(n, x))) == 0.0
    {
      StrandStart(j0, of, sg, c.R(n, x), upto);
    }
    forall j | j0 <= j < upto
      ensures !OnStrand(j0, of, sg, j)
    {
      SmallRemainder(j - j0, of);
    }
  }

  // ----- merging parts by their maxima and sums -----

  /** A merge's terms: each part's value by exp of its maximum less the greatest. */
  function MergeTerms(e: Exponential, ms: Vec, vs: Vec, top: real): Vec {
    w => vs(w) * e.exp(ms(w) - top)
  }

  function Unscaled(e: Exponential, ms: Vec, vs: Vec): Vec { w => vs(w) * e.exp(ms(w)) }

  /** Merged under any maximum, the parts' plain sums add. */
  lemma MergeAdds(e: Exponential, n: int, ms: Vec, vs: Vec, top: real)
    requires e.Laws()
    ensures Sum(0, n, MergeTerms(e, ms, vs, top)) * e.exp(top) == Sum(0, n, Unscaled(e, ms, vs))
  {
    forall w | 0 <= w < n
      ensures Unscaled(e, ms, vs)(w) == e.exp(top) * MergeTerms(e, ms, vs, top)(w)
    {
      ExpShift(e, ms(w), top);
      Swap'(vs(w), e.exp(ms(w) - top), e.exp(top));
    }
    SumScale(0, n, e.exp(top), MergeTerms(e, ms, vs, top), Unscaled(e, ms, vs));
  }

  lemma Swap'(v: real, a: real, f: real)
    ensures v * (a * f) == f * (v * a)
  {
  }

  /** The greatest of LOWEST and the parts' maxima. */
  method TopOf(ms: Vec, n: nat) returns (top: real)
    ensures LOWEST <= top && forall w :: 0 <= w < n ==> ms(w) <= top
    ensures top == LOWEST || exists w :: 0 <= w < n && ms(w) == top
  {
    top := LOWEST;
    for w := 0 to n
      invariant LOWEST <= top && forall u :: 0 <= u < w ==> ms(u) <= top
      invariant top == LOWEST || exists u :: 0 <= u < w && ms(u) == top
    {
      top := Max(top, ms(w));
    }
  }

  /** Sums of a merge, as the kernel's loop over the parts takes them. */
  method MergeSum(e: Exponential, ms: Vec, vs: Vec, top: real, n: nat) returns (total: real)
    ensures total == Sum(0, n, MergeTerms(e, ms, vs, top))
  {
    total := 0.0;
    for w := 0 to n
      invariant total == Sum(0, w, MergeTerms(e, ms, vs, top))
    {
      var f := e.exp(ms(w) - top);
      total := total + vs(w) * f;
    }
  }

  /** A split's part of a head: the keys a..b. */
  ghost predicate RangeTracks(c: Decode, n: int, a: int, b: int, m: real, s: real, o: Vec)
    requires c.Valid()
  {
    && s * c.e.exp(m) == Sum(a, b, c.W(n))
    && (forall x :: 0 <= x < c.d ==> o(x) * c.e.exp(m) == Sum(a, b, c.R(n, x)))
    && LOWEST <= m
    && (forall j :: a <= j < b ==> c.Score(n, j) <= m)
  }

  /** The simdgroups' strands of one head, merged, are the whole split. */
  lemma StrandsMerge(c: Decode, n: int, j0: int, end: int, of: int, ms: Vec, ss: Vec, os: int -> Vec, mm: real,
                     total: real, acc: Vec)
    requires c.Valid() && of > 0 && j0 <= end
    requires forall w :: 0 <= w < of ==> StrandTracks(c, n, j0, end, w, of, ms(w), ss(w), os(w))
    requires LOWEST <= mm && forall w :: 0 <= w < of ==> ms(w) <= mm
    requires total == Sum(0, of, MergeTerms(c.e, ms, ss, mm))
    requires forall x :: 0 <= x < c.d ==> acc(x) == Sum(0, of, MergeTerms(c.e, ms, Entries(os, x), mm))
    ensures RangeTracks(c, n, j0, end, mm, total, acc)
  {
    hide Sum, Strand, Decode.Score;
    MergeAdds(c.e, of, ms, ss, mm);
    Strands(j0, end, of, c.W(n), Unscaled(c.e, ms, ss));
    forall x | 0 <= x < c.d
      ensures acc(x) * c.e.exp(mm) == Sum(j0, end, c.R(n, x))
    {
      MergeAdds(c.e, of, ms, Entries(os, x), mm);
      Strands(j0, end, of, c.R(n, x), Unscaled(c.e, ms, Entries(os, x)));
    }
    forall j | j0 <= j < end
      ensures c.Score(n, j) <= mm
    {
      var w := (j - j0) % of;
      assert OnStrand(j0, of, w, j);
      assert StrandTracks(c, n, j0, end, w, of, ms(w), ss(w), os(w));
    }
  }

  function Entries(os: int -> Vec, x: int): Vec { w => os(w)(x) }

  // ----- the kernel: one split -----

  /** A simdgroup's results for the heads of its group, in threadgroup memory. */
  datatype GroupPart = GroupPart(m: seq<real>, s: seq<real>, o: seq<Vec>)

  function PartMax(parts: seq<GroupPart>, g: int): Vec {
    w => if 0 <= w < |parts| then At(parts[w].m, g) else 0.0
  }

  function PartSum(parts: seq<GroupPart>, g: int): Vec {
    w => if 0 <= w < |parts| then At(parts[w].s, g) else 0.0
  }

  function PartOut(parts: seq<GroupPart>, g: int): int -> Vec {
    w => if 0 <= w < |parts| && 0 <= g < |parts[w].o| then parts[w].o[g] else x => 0.0
  }

  /** One threadgroup: the split's keys dealt to the simdgroups, their parts merged head by head. */
  method DecodeSplit(c: Decode, y: int, j0: nat, j1: int, of: nat) returns (m: seq<real>, s: seq<real>, o: seq<Vec>)
    requires c.Valid() && c.d % LANES == 0 && of > 0
    ensures |m| == |s| == |o| == c.group
    ensures forall g :: 0 <= g < c.group ==> RangeTracks(c, GroupHead(c, y, g), j0, MaxInt(j0, j1), m[g], s[g], o[g])
  {
    hide StrandTracks, RangeTracks, Sum;
    var parts: seq<GroupPart> := [];
    while |parts| < of
      invariant |parts| <= of
      invariant forall w :: 0 <= w < |parts| ==> |parts[w].m| == |parts[w].s| == |parts[w].o| == c.group
      invariant forall w, g :: 0 <= w < |parts| && 0 <= g < c.group ==>
                  StrandTracks(c, GroupHead(c, y, g), j0, MaxInt(j0, j1), w, of, parts[w].m[g], parts[w].s[g],
                               parts[w].o[g])
    {
      var pm, ps, po := Simdgroup(c, y, j0, j1, |parts|, of);
      parts := parts + [GroupPart(pm, ps, po)];
    }
    m, s, o := [], [], [];
    while |m| < c.group
      invariant |m| == |s| == |o| <= c.group
      invariant forall g :: 0 <= g < |m| ==> RangeTracks(c, GroupHead(c, y, g), j0, MaxInt(j0, j1), m[g], s[g], o[g])
    {
      var g := |m|;
      var ms, ss, os := PartMax(parts, g), PartSum(parts, g), PartOut(parts, g);
      var mm := TopOf(ms, of);
      var total := MergeSum(c.e, ms, ss, mm, of);
      var acc: Vec := x => Sum(0, of, MergeTerms(c.e, ms, Entries(os, x), mm));
      StrandsMerge(c, GroupHead(c, y, g), j0, MaxInt(j0, j1), of, ms, ss, os, mm, total, acc);
      m, s, o := m + [mm], s + [total], o + [acc];
    }
  }

  // ----- the call: every split of every slice -----

  /** Where the pieces of the keys lo..hi begin, chunk keys each. */
  function PieceStart(lo: int, hi: int, chunk: int): int -> int { p => MinInt(hi, lo + p * chunk) }

  function SplitStart(lo: int, chunk: int, p: int): int { lo + p * chunk }

  function SplitEnd(lo: int, hi: int, chunk: int, p: int): int {
    MaxInt(SplitStart(lo, chunk, p), MinInt(hi, SplitStart(lo, chunk, p) + chunk))
  }

  /** A split's keys, empty ones past the end included, are a piece of lo..hi. */
  lemma SplitIsPiece(lo: int, hi: int, chunk: int, p: int, f: Vec)
    requires lo <= hi && chunk >= 0 && p >= 0
    ensures PieceStart(lo, hi, chunk)(p) <= PieceStart(lo, hi, chunk)(p + 1)
    ensures Sum(SplitStart(lo, chunk, p), SplitEnd(lo, hi, chunk, p), f)
         == Sum(PieceStart(lo, hi, chunk)(p), PieceStart(lo, hi, chunk)(p + 1), f)
  {
    assert (p + 1) * chunk == p * chunk + chunk;
  }

  lemma PiecesReachEnd(lo: int, hi: int, splits: nat, chunk: int)
    requires lo <= hi && splits > 0 && chunk == (hi - lo + splits - 1) / splits
    ensures chunk >= 0
    ensures PieceStart(lo, hi, chunk)(0) == lo && PieceStart(lo, hi, chunk)(splits) == hi
  {
    var x := hi - lo + splits - 1;
    assert x == splits * chunk + x % splits;
  }

  /** Key j of lo..hi is taken by split (j - lo) / chunk, and there by one simdgroup, and by no
      other. */
  lemma KeyTakenOnce(lo: int, hi: int, splits: nat, of: nat, j: int) returns (p: int, w: int)
    requires lo <= j < hi && splits > 0 && of > 0
    ensures var chunk := (hi - lo + splits - 1) / splits;
            && Takes(lo, hi, chunk, of, p, w, j) && 0 <= p < splits && 0 <= w < of
            && forall p', w' :: 0 <= p' < splits && 0 <= w' < of && Takes(lo, hi, chunk, of, p', w', j) ==>
                 p' == p && w' == w
  {
    hide Takes;
    var chunk := (hi - lo + splits - 1) / splits;
    p, w := Taker(lo, hi, splits, chunk, of, j);
    forall p', w' | 0 <= p' < splits && 0 <= w' < of && Takes(lo, hi, chunk, of, p', w', j)
      ensures p' == p && w' == w
    {
      TakerIs(lo, hi, chunk, of, p, w, j);
      TakerIs(lo, hi, chunk, of, p', w', j);
    }
  }

  lemma Taker(lo: int, hi: int, splits: nat, chunk: int, of: nat, j: int) returns (p: int, w: int)
    requires lo <= j < hi && splits > 0 && of > 0 && chunk == (hi - lo + splits - 1) / splits
    ensures Takes(lo, hi, chunk, of, p, w, j) && 0 <= p < splits && 0 <= w < of && chunk > 0
  {
    PiecesReachEnd(lo, hi, splits, chunk);
    p := (j - lo) / chunk;
    w := (j - (lo + p * chunk)) % of;
    assert j - lo == p * chunk + (j - lo) % chunk;
    if p >= splits {
      ProductGrows(splits, p, chunk);
    }
  }

  lemma TakerIs(lo: int, hi: int, chunk: int, of: nat, p: int, w: int, j: int)
    requires chunk > 0 && of > 0 && Takes(lo, hi, chunk, of, p, w, j)
    ensures p == (j - lo) / chunk && w == (j - (lo + p * chunk)) % of
  {
    DivUnique(j - lo, chunk, p, j - lo - p * chunk);
  }

  /** Simdgroup w of split p walks over key j. */
  ghost predicate Takes(lo: int, hi: int, chunk: int, of: int, p: int, w: int, j: int)
    requires of > 0
  {
    var j0 := lo + p * chunk;
    j0 <= j < MinInt(hi, j0 + chunk) && OnStrand(j0, of, w, j)
  }

  /** What the splits hold, merged under any maximum, is the whole range's. */
  lemma SplitsAdd(e: Exponential, lo: int, hi: int, splits: nat, chunk: int, ms: Vec, vs: Vec, top: real, f: Vec)
    requires e.Laws() && lo <= hi && splits > 0 && chunk == (hi - lo + splits - 1) / splits
    requires forall p :: 0 <= p < splits ==>
               Unscaled(e, ms, vs)(p) == Sum(SplitStart(lo, chunk, p), SplitEnd(lo, hi, chunk, p), f)
    ensures Sum(0, splits, MergeTerms(e, ms, vs, top)) * e.exp(top) == Sum(lo, hi, f)
  {
    hide Sum, PieceStart, SplitStart, SplitEnd, MergeTerms, Unscaled;
    PiecesReachEnd(lo, hi, splits, chunk);
    MergeAdds(e, splits, ms, vs, top);
    forall p | 0 <= p < splits
      ensures PieceStart(lo, hi, chunk)(p) <= PieceStart(lo, hi, chunk)(p + 1)
      ensures Unscaled(e, ms, vs)(p) == Sum(PieceStart(lo, hi, chunk)(p), PieceStart(lo, hi, chunk)(p + 1), f)
    {
      SplitIsPiece(lo, hi, chunk, p, f);
    }
    SumPieces(splits, PieceStart(lo, hi, chunk), f, Unscaled(e, ms, vs));
  }

  ghost predicate SplitTracks(c: Decode, n: int, lo: int, hi: int, chunk: int, p: int, m: real, s: real, o: Vec)
    requires c.Valid()
  {
    RangeTracks(c, n, SplitStart(lo, chunk, p), SplitEnd(lo, hi, chunk, p), m, s, o)
  }

  /** The splits of one head, merged, are the whole range. */
  lemma SplitsMerge(c: Decode, n: int, lo: int, hi: int, splits: nat, chunk: int, ms: Vec, ss: Vec, os: int -> Vec,
                    top: real)
    requires c.Valid() && lo <= hi && splits > 0 && chunk == (hi - lo + splits - 1) / splits
    requires forall p :: 0 <= p < splits ==> SplitTracks(c, n, lo, hi, chunk, p, ms(p), ss(p), os(p))
    ensures Sum(0, splits, MergeTerms(c.e, ms, ss, top)) * c.e.exp(top) == Sum(lo, hi, c.W(n))
    ensures forall x :: 0 <= x < c.d ==>
              Sum(0, splits, MergeTerms(c.e, ms, Entries(os, x), top)) * c.e.exp(top) == Sum(lo, hi, c.R(n, x))
  {
    hide Sum, Decode.Score, SplitStart, SplitEnd;
    forall p | 0 <= p < splits
      ensures Unscaled(c.e, ms, ss)(p) == Sum(SplitStart(lo, chunk, p), SplitEnd(lo, hi, chunk, p), c.W(n))
    {
      assert SplitTracks(c, n, lo, hi, chunk, p, ms(p), ss(p), os(p));
    }
    SplitsAdd(c.e, lo, hi, splits, chunk, ms, ss, top, c.W(n));
    forall x | 0 <= x < c.d
      ensures Sum(0, splits, MergeTerms(c.e, ms, Entries(os, x), top)) * c.e.exp(top) == Sum(lo, hi, c.R(n, x))
    {
      forall p | 0 <= p < splits
        ensures Unscaled(c.e, ms, Entries(os, x))(p)
             == Sum(SplitStart(lo, chunk, p), SplitEnd(lo, hi, chunk, p), c.R(n, x))
      {
        assert SplitTracks(c, n, lo, hi, chunk, p, ms(p), ss(p), os(p));
      }
      SplitsAdd(c.e, lo, hi, splits, chunk, ms, Entries(os, x), top, c.R(n, x));
    }
  }

  lemma MergedIsAverage(c: Decode, n: int, x: int, lo: int, hi: int, top: real, total: real, merged: real)
    requires c.Valid()
    requires total * c.e.exp(top) == Sum(lo, hi, c.W(n)) && merged * c.e.exp(top) == Sum(lo, hi, c.R(n, x))
    ensures merged / (if total > 0.0 then total else 1.0) == c.Average(n, x, lo, hi)
  {
    hide Sum;
    SumNonNegative(lo, hi, c.W(n));
    SignOfScaled(total, c.e.exp(top), Sum(lo, hi, c.W(n)));
    if total > 0.0 {
      QuotientOfScaled(merged, total, c.e.exp(top));
    } else {
      NoWeights(c, n, x, lo, hi);
      SignOfScaled(merged, c.e.exp(top), 0.0);
    }
  }

  lemma NoWeights(c: Decode, n: int, x: int, lo: int, hi: int)
    requires c.Valid() && Sum(lo, hi, c.W(n)) == 0.0
    ensures hi <= lo && Sum(lo, hi, c.R(n, x)) == 0.0
  {
    if lo < hi {
      SumAtLeast(lo, hi, lo, c.W(n));
    }
  }

  /** One slice: its splits, then their merge, head by head. */
  method DecodeSlice(c: Decode, y: int, splits: nat, of: nat) returns (out: seq<Vec>)
    requires c.Valid() && c.d % LANES == 0 && splits > 0 && of > 0
    ensures |out| == c.group
    ensures forall g, x :: 0 <= g < c.group && 0 <= x < c.d ==>
              out[g](x) == c.Average(GroupHead(c, y, g), x, c.Lo(y / c.hkv), c.Hi(y / c.hkv))
  {
    hide RangeTracks, Sum, Decode.Average, Decode.Hi;
    var hi, lo := c.Hi(y / c.hkv), c.Lo(y / c.hkv);
    var chunk := (hi - lo + splits - 1) / splits;
    PiecesReachEnd(lo, hi, splits, chunk);
    var parts: seq<GroupPart> := [];
    while |parts| < splits
      invariant |parts| <= splits
      invariant forall p :: 0 <= p < |parts| ==> |parts[p].m| == |parts[p].s| == |parts[p].o| == c.group
      invariant forall p, g :: 0 <= p < |parts| && 0 <= g < c.group ==>
                  SplitTracks(c, GroupHead(c, y, g), lo, hi, chunk, p, parts[p].m[g], parts[p].s[g], parts[p].o[g])
    {
      ProductGrows(0, |parts|, chunk);
      var j0 := SplitStart(lo, chunk, |parts|);
      var pm, ps, po := DecodeSplit(c, y, j0, MinInt(hi, j0 + chunk), of);
      parts := parts + [GroupPart(pm, ps, po)];
    }
    out := [];
    while |out| < c.group
      invariant |out| <= c.group
      invariant forall g, x :: 0 <= g < |out| && 0 <= x < c.d ==> out[g](x) == c.Average(GroupHead(c, y, g), x, lo, hi)
    {
      var row := MergeSplits(c, GroupHead(c, y, |out|), |out|, lo, hi, splits, chunk, parts);
      out := out + [row];
    }
  }

  /** The splits of one head merged by their maxima and sums. */
  method MergeSplits(c: Decode, n: int, g: nat, lo: int, hi: int, splits: nat, chunk: int, parts: seq<GroupPart>)
    returns (out: Vec)
    requires c.Valid() && lo <= hi && splits > 0 && chunk == (hi - lo + splits - 1) / splits
    requires |parts| == splits && g < c.group
    requires forall p :: 0 <= p < |parts| ==> |parts[p].m| == |parts[p].s| == |parts[p].o| == c.group
    requires forall p :: 0 <= p < |parts| ==>
      SplitTracks(c, n, lo, hi, chunk, p, parts[p].m[g], parts[p].s[g], parts[p].o[g])
    ensures forall x :: 0 <= x < c.d ==> out(x) == c.Average(n, x, lo, hi)
  {
    hide Sum, SplitTracks, Decode.Average, Decode.W, Decode.R;
    var ms, ss, os := PartMax(parts, g), PartSum(parts, g), PartOut(parts, g);
    var top := TopOf(ms, splits);
    var total := MergeSum(c.e, ms, ss, top, splits);
    var merged: Vec := x => Sum(0, splits, MergeTerms(c.e, ms, Entries(os, x), top));
    forall p | 0 <= p < splits
      ensures SplitTracks(c, n, lo, hi, chunk, p, ms(p), ss(p), os(p))
    {
    }
    SplitsMerge(c, n, lo, hi, splits, chunk, ms, ss, os, top);
    out := x => merged(x) / (if total > 0.0 then total else 1.0);
    forall x | 0 <= x < c.d
      ensures out(x) == c.Average(n, x, lo, hi)
    {
      assert merged(x) * c.e.exp(top) == Sum(lo, hi, c.R(n, x));
      MergedIsAverage(c, n, x, lo, hi, top, total, merged(x));
    }
  }

  // ----- decoding is attention -----

  function Scores(c: Decode, n: int): Vec
    requires c.group > 0
  {
    j => c.Score(n, j)
  }

  function NoPadding(): int -> bool { j => true }

  /** The contract's attention of head n with one query after `held` keys. */
  ghost function AttendOne(c: Decode, options: Options, held: nat, n: int, x: int): real
    requires c.group > 0
  {
    Attend(c.e, held, Allowed(options, 1, held, 0, NoPadding()), Scores(c, n), j => c.v(n / c.group, j, x))
  }

  /** Without a key the attention is 0. */
  lemma NoKeys(c: Decode, options: Options, n: int, x: int)
    requires c.group > 0
    ensures AttendOne(c, options, 0, n, x) == 0.0
  {
  }

  /** The keys the options allow that query are those from Lo. */
  lemma WindowIsRange(c: Decode, options: Options, b: int, j: int)
    requires c.Valid() && c.left == Reach(options).0 && 0 <= j < c.Hi(b)
    ensures options.Allows(1, c.Hi(b), 0, j) <==> c.Lo(b) <= j
  {
  }

  lemma RangeIsAttention(c: Decode, options: Options, b: int, n: int, x: int)
    requires c.Valid() && c.left == Reach(options).0
    ensures AttendOne(c, options, c.Hi(b), n, x) == c.Average(n, x, c.Lo(b), c.Hi(b))
  {
    hide Sum, Decode.Hi, Decode.Lo, Decode.Score, Reach, Options.Allows;
    var lo, hi := c.Lo(b), c.Hi(b);
    var vis := Allowed(options, 1, hi, 0, NoPadding());
    var values: Vec := j => c.v(n / c.group, j, x);
    var w, r := VisibleWeights(c.e, vis, Scores(c, n)), VisibleValues(c.e, vis, Scores(c, n), values);
    LoInRange(c, b);
    SumSplit(0, lo, hi, w);
    SumSplit(0, lo, hi, r);
    forall j | 0 <= j < hi
      ensures w(j) == if lo <= j then c.W(n)(j) else 0.0
      ensures r(j) == if lo <= j then c.R(n, x)(j) else 0.0
    {
      WindowIsRange(c, options, b, j);
    }
    SumZero(0, lo, w);
    SumZero(0, lo, r);
    SumEqual(lo, hi, w, c.W(n));
    SumEqual(lo, hi, r, c.R(n, x));
  }

  /** What a sequence gets whose length reaches the kernel as the i32 `length`: the contract's attention over
      exactly its keys, whatever the options say of causality and of the window; all of the cache for a
      length beyond it, zeros for a negative one. */
  ghost function AttendFirst(c: Decode, options: Options, length: int, n: int, x: int): real
    requires c.group > 0
  {
    if length < 0 then 0.0 else AttendOne(c, options, if length <= c.s then length else c.s, n, x)
  }

  /** The value for the length given, which 32 bits hold or wrap; all of the cache where none is given. */
  ghost predicate DecodedAs(c: Decode, options: Options, b: int, n: int, x: int, value: real)
    requires c.group > 0
  {
    match c.lengths
    case None => value == AttendOne(c, options, c.s, n, x)
    case Some(lengths) =>
      forall length: int :: -I32_MAX - 1 <= length <= I32_MAX && Same32(lengths(b), length) ==>
        value == AttendFirst(c, options, length, n, x)
  }

  /** The two are one in 32 bits. */
  predicate Same32(a: int, b: int) { (a - b) % 0x1_0000_0000 == 0 }

  /** The keys a length comes to. */
  lemma HeldKeys(c: Decode, b: int, length: int)
    requires c.Valid() && c.lengths.Some?
    requires -I32_MAX - 1 <= length <= I32_MAX && Same32(c.lengths.value(b), length)
    ensures c.Hi(b) == if length < 0 then 0 else if length <= c.s then length else c.s
  {
    hide Wrap32, Same32;
    WrapsTo(c.lengths.value(b), length);
  }

  /** Decoding is the contract's attention with one query after the last key held. */
  lemma DecodeIsAttention(c: Decode, options: Options, b: int, n: int, x: int)
    requires c.Valid() && c.left == Reach(options).0
    ensures DecodedAs(c, options, b, n, x, c.Average(n, x, c.Lo(b), c.Hi(b)))
  {
    hide AttendOne, Reach, Decode.Average, Decode.Lo, Decode.Hi, Same32;
    RangeIsAttention(c, options, b, n, x);
    NoKeys(c, options, n, x);
    match c.lengths
    case None => AllKeys(c, b);
    case Some(lengths) =>
      forall length: int | -I32_MAX - 1 <= length <= I32_MAX && Same32(lengths(b), length)
        ensures c.Average(n, x, c.Lo(b), c.Hi(b)) == AttendFirst(c, options, length, n, x)
      {
        HeldKeys(c, b, length);
      }
  }

  lemma AllKeys(c: Decode, b: int)
    requires c.lengths.None?
    ensures c.Hi(b) == c.s
  {
  }

  lemma WrapsTo(length: int, other: int)
    requires -I32_MAX - 1 <= other <= I32_MAX && Same32(length, other)
    ensures Wrap32(length) == other
  {
    DivUnique(length + 0x8000_0000, 0x1_0000_0000, (length - other) / 0x1_0000_0000, other + 0x8000_0000);
  }

  /** The whole of decoding for slice y of the cache, which sequence y / hkv holds: each of its query heads,
      for any number of splits and of simdgroups. */
  method DecodeHeads(c: Decode, options: Options, y: int, splits: nat, of: nat) returns (out: seq<Vec>)
    requires c.Valid() && c.d % LANES == 0 && splits > 0 && of > 0 && c.left == Reach(options).0
    ensures |out| == c.group
    ensures forall g, x :: 0 <= g < c.group && 0 <= x < c.d ==>
              DecodedAs(c, options, y / c.hkv, y * c.group + g, x, out[g](x))
  {
    hide DecodedAs, Decode.Average, Reach;
    out := DecodeSlice(c, y, splits, of);
    forall g, x | 0 <= g < c.group && 0 <= x < c.d
      ensures DecodedAs(c, options, y / c.hkv, y * c.group + g, x, out[g](x))
    {
      DecodeIsAttention(c, options, y / c.hkv, y * c.group + g, x);
      assert GroupHead(c, y, g) == y * c.group + g;
    }
  }

  lemma LoInRange(c: Decode, b: int)
    ensures 0 <= c.Lo(b) <= c.Hi(b) <= c.s
  {
  }
}
