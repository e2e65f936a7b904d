/** The two parallel prefix sums the top-p cut can take over a row of weights: Hillis and Steele's,
    whose steps double, and Blelloch's tree of pairs, whose levels halve and are walked back. */
module Scans {
  import opened Sums
  import opened Integers

  /** The entries of a row, 0 outside it. */
  function Entries(x: seq<real>): Vec { i => if 0 <= i < |x| then x[i] else 0.0 }

  /** y holds the sums of x's entries up to and including each. */
  ghost predicate IsCumulative(y: seq<real>, x: seq<real>) {
    |y| == |x| && forall i :: 0 <= i < |y| ==> y[i] == Sum(0, i + 1, Entries(x))
  }

  /** n is ceil(log2 v), 0 for the empty row. */
  ghost predicate IsCeilLog2(n: nat, v: nat) {
    v <= Pow2(n) && (n > 0 ==> Pow2(n - 1) < v)
  }

  function Zeros(n: nat): seq<real> { seq(n, _ => 0.0) }

  function Add(a: seq<real>, b: seq<real>): (s: seq<real>)
    requires |a| == |b|
  {
    seq(|a|, i requires 0 <= i < |a| => a[i] + b[i])
  }

  // ----- Hillis and Steele -----

  /** Each entry is the sum of the `width` entries of x that end at it. */
  ghost predicate Windows(y: seq<real>, x: seq<real>, width: nat) {
    |y| == |x| && forall i :: 0 <= i < |y| ==> y[i] == Sum(i + 1 - width, i + 1, Entries(x))
  }

  /** A window joined to the one before it. */
  lemma WindowsDouble(y: seq<real>, x: seq<real>, shift: nat)
    requires 0 < shift <= |x| && Windows(y, x, shift)
    ensures Windows(Add(y, Zeros(shift) + y[..|x| - shift]), x, 2 * shift)
  {
    hide Sum;
    var f := Entries(x);
    var z := Add(y, Zeros(shift) + y[..|x| - shift]);
    forall i | 0 <= i < |x|
      ensures z[i] == Sum(i + 1 - 2 * shift, i + 1, f)
    {
      SumSplit(i + 1 - 2 * shift, i + 1 - shift, i + 1, f);
      if i < shift {
        SumZero(i + 1 - 2 * shift, i + 1 - shift, f);
      } else {
        assert y[i - shift] == Sum(i - shift + 1 - shift, i - shift + 1, f);
      }
    }
  }

  lemma WindowsWhole(y: seq<real>, x: seq<real>, width: nat)
    requires |x| <= width && Windows(y, x, width)
    ensures IsCumulative(y, x)
  {
    hide Sum;
    forall i | 0 <= i < |y|
      ensures y[i] == Sum(0, i + 1, Entries(x))
    {
      SumSplit(i + 1 - width, 0, i + 1, Entries(x));
      SumZero(i + 1 - width, 0, Entries(x));
    }
  }

  /** `tree_cumsum` on a row: ceil(log2 V) steps, each adding the entry 2^k before. */
  method TreeCumsum(x: seq<real>) returns (y: seq<real>, steps: nat)
    ensures IsCumulative(y, x)
    ensures IsCeilLog2(steps, |x|)
  {
    hide Windows, IsCumulative;
    y, steps := x, 0;
    var shift := 1;
    SingleWindows(x);
    while shift < |x|
      invariant shift == Pow2(steps)
      invariant steps > 0 ==> Pow2(steps - 1) < |x|
      invariant |y| == |x| && Windows(y, x, shift)
      decreases |x| - shift
    {
      WindowsDouble(y, x, shift);
      var earlier := y[..|x| - shift];
      y := Add(y, Zeros(shift) + earlier);
      shift := shift * 2;
      steps := steps + 1;
    }
    WindowsWhole(y, x, shift);
  }

  lemma SingleWindows(x: seq<real>)
    ensures Windows(x, x, 1)
  {
    forall i | 0 <= i < |x|
      ensures x[i] == Sum(i + 1 - 1, i + 1, Entries(x))
    {
      assert Sum(i, i, Entries(x)) == 0.0;
    }
  }

  // ----- Blelloch -----

  /** The least power of two not below v, as its exponent. */
  function CeilLog2(v: nat): (n: nat)
    ensures IsCeilLog2(n, v)
  {
    if v <= 1 then 0 else 1 + CeilLog2((v + 1) / 2)
  }

  /** Neighbours summed. */
  function PairSums(x: seq<real>): seq<real> {
    seq(|x| / 2, i requires 0 <= i < |x| / 2 => x[2 * i] + x[2 * i + 1])
  }

  /** The left children of a level. */
  function Lefts(x: seq<real>): seq<real> {
    seq(|x| / 2, i requires 0 <= i < |x| / 2 => x[2 * i])
  }

  /** Two rows interleaved: `stack` on a new last axis, flattened. */
  function Interleave(a: seq<real>, b: seq<real>): seq<real>
    requires |a| == |b|
  {
    seq(2 * |a|, i requires 0 <= i < 2 * |a| => if i % 2 == 0 then a[i / 2] else b[i / 2])
  }

  /** y holds the sums of x's entries before each. */
  ghost predicate IsExclusive(y: seq<real>, x: seq<real>) {
    |y| == |x| && forall i :: 0 <= i < |y| ==> y[i] == Sum(0, i, Entries(x))
  }

  /** A prefix of the pairs is a prefix of twice as many entries. */
  lemma {:induction false} PairPrefix(x: seq<real>, i: nat)
    requires 2 * i <= |x|
    ensures Sum(0, i, Entries(PairSums(x))) == Sum(0, 2 * i, Entries(x))
    decreases i
  {
    if i > 0 {
      PairPrefix(x, i - 1);
      assert Sum(0, 2 * i - 1, Entries(x)) == Sum(0, 2 * i - 2, Entries(x)) + Entries(x)(2 * i - 2);
    }
  }

  /** From a level's parents to the level: left children take their parent's prefix, right ones
      their left sibling's entry too. */
  lemma PrefixesDescend(prefix: seq<real>, level: seq<real>)
    requires |level| % 2 == 0 && IsExclusive(prefix, PairSums(level))
    ensures |Add(prefix, Lefts(level))| == |prefix|
    ensures IsExclusive(Interleave(prefix, Add(prefix, Lefts(level))), level)
  {
    var y := Interleave(prefix, Add(prefix, Lefts(level)));
    forall i | 0 <= i < |level|
      ensures y[i] == Sum(0, i, Entries(level))
    {
      PairPrefix(level, i / 2);
      if i % 2 == 1 {
        assert i == 2 * (i / 2) + 1;
      }
    }
  }

  /** Each level is the one before it, summed in pairs, down to one entry. */
  ghost predicate Levels(levels: seq<seq<real>>, depth: nat) {
    && 0 < |levels| <= depth + 1
    && (forall l :: 0 <= l < |levels| ==> |levels[l]| == Pow2(depth - l))
    && (forall l :: 0 <= l < |levels| - 1 ==> levels[l + 1] == PairSums(levels[l]))
  }

  lemma LevelsGrow(levels: seq<seq<real>>, depth: nat)
    requires Levels(levels, depth) && |levels[|levels| - 1]| > 1
    ensures Levels(levels + [PairSums(levels[|levels| - 1])], depth)
  {
    var next := levels + [PairSums(levels[|levels| - 1])];
    forall l | 0 <= l < |next|
      ensures |next[l]| == Pow2(depth - l)
    {
      if l == |levels| {
        assert Pow2(depth - (l - 1)) == 2 * Pow2(depth - l);
      }
    }
  }

  /** `pairs_cumsum` on a row. */
  method PairsCumsum(x: seq<real>) returns (y: seq<real>, depth: nat)
    ensures IsCumulative(y, x)
    ensures IsCeilLog2(depth, |x|)
  {
    hide PairSums, Lefts, IsExclusive, Interleave, Sum, Entries;
    depth := CeilLog2(|x|);
    var n := Pow2(depth);
    var padded := if n > |x| then x + Zeros(n - |x|) else x;
    var levels := [padded];
    while |levels[|levels| - 1]| > 1
      invariant Levels(levels, depth) && levels[0] == padded
      decreases depth + 1 - |levels|
    {
      LevelsGrow(levels, depth);
      levels := levels + [PairSums(levels[|levels| - 1])];
    }
    OneEntry(levels, depth);
    var prefix := Zeros(1);
    RootPrefix(levels[depth]);
    var l := depth;
    while l > 0
      invariant 0 <= l <= depth && IsExclusive(prefix, levels[l])
    {
      SameLength(prefix, levels[l]);
      l := l - 1;
      EvenLevel(levels, depth, l);
      PrefixesDescend(prefix, levels[l]);
      var right := Add(prefix, Lefts(levels[l]));
      prefix := Interleave(prefix, right);
    }
    SameLength(prefix, padded);
    y := Add(prefix, padded)[..|x|];
    EndsInclusive(prefix, x, padded);
  }

  /** The walk up stops at the root. */
  lemma OneEntry(levels: seq<seq<real>>, depth: nat)
    requires Levels(levels, depth) && |levels[|levels| - 1]| <= 1
    ensures |levels| == depth + 1 && |levels[depth]| == 1
  {
    if |levels| <= depth {
      assert Pow2(depth - (|levels| - 1)) == 2 * Pow2(depth - |levels|);
      PowPositive(depth - |levels|);
    }
  }

  lemma {:induction false} PowPositive(n: nat)
    ensures Pow2(n) >= 1
  {
    if n > 0 {
      PowPositive(n - 1);
    }
  }

  lemma RootPrefix(level: seq<real>)
    requires |level| == 1
    ensures IsExclusive(Zeros(1), level)
  {
  }

  lemma EvenLevel(levels: seq<seq<real>>, depth: nat, l: nat)
    requires Levels(levels, depth) && l < |levels| - 1
    ensures |levels[l]| % 2 == 0 && levels[l + 1] == PairSums(levels[l])
    ensures |Lefts(levels[l])| == |PairSums(levels[l])|
  {
    assert Pow2(depth - l) == 2 * Pow2(depth - l - 1);
  }

  lemma SameLength(prefix: seq<real>, x: seq<real>)
    requires IsExclusive(prefix, x)
    ensures |prefix| == |x|
  {
  }

  /** Each entry added to what comes before it; the padding changes no prefix of the row. */
  lemma EndsInclusive(prefix: seq<real>, x: seq<real>, padded: seq<real>)
    requires IsExclusive(prefix, padded) && |x| <= |padded| && padded == x + Zeros(|padded| - |x|)
    ensures IsCumulative(Add(prefix, padded)[..|x|], x)
  {
    var y := Add(prefix, padded)[..|x|];
    forall i | 0 <= i < |x|
      ensures y[i] == Sum(0, i + 1, Entries(x))
    {
      SumEqual(0, i, Entries(padded), Entries(x));
    }
  }
}
