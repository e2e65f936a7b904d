/** What the passes over the vocabulary share: the masked ids, the targets, the chunks of tokens and
    the blocks of rows. */
module Vocabulary {
  import opened Sums
  import opened Analysis
  import opened Integers
  import opened Chunks

  const DEFAULT_VOCAB_CHUNK: nat := 3072

  // ----- the masked ids, sorted once each -----

  ghost predicate Increasing(s: seq<nat>) {
    forall a, b :: 0 <= a < b < |s| ==> s[a] < s[b]
  }

  function Insert(s: seq<nat>, x: nat): (r: seq<nat>)
    requires Increasing(s)
    ensures Increasing(r)
    ensures forall y :: y in r <==> y in s || y == x
  {
    if s == [] then [x]
    else
      var last := s[|s| - 1];
      assert s == s[..|s| - 1] + [last];
      if last < x then s + [x]
      else if last == x then s
      else
        var init := Insert(s[..|s| - 1], x);
        assert forall i :: 0 <= i < |init| ==> init[i] in init;
        init + [last]
  }

  /** `sort` and `dedup`. */
  function SortDedup(ids: seq<nat>): (r: seq<nat>)
    ensures Increasing(r)
    ensures forall y :: y in r <==> y in ids
  {
    if ids == [] then []
    else
      assert ids == ids[..|ids| - 1] + [ids[|ids| - 1]];
      Insert(SortDedup(ids[..|ids| - 1]), ids[|ids| - 1])
  }

  /** `partition_point(|id| id < c)`: how many of the sorted ids are below c. */
  function PartitionPoint(s: seq<nat>, c: int): (k: nat)
    requires Increasing(s)
    ensures k <= |s|
    ensures forall i :: 0 <= i < |s| ==> (i < k <==> s[i] < c)
  {
    if s == [] || s[|s| - 1] < c then |s| else PartitionPoint(s[..|s| - 1], c)
  }

  // ----- the vocabulary -----

  datatype Vocabulary = Vocabulary(vocab: nat, masked: seq<nat>, targets: seq<int>, valid: seq<bool>, chunk: nat,
                                   blocks: seq<(int, int)>) {

    /** What `New` makes sure of. */
    ghost predicate WellFormed() {
      && |targets| == |valid| && chunk > 0 && Increasing(masked)
      && (forall i :: 0 <= i < |masked| ==> masked[i] < vocab)
      && (forall i :: 0 <= i < |valid| ==> valid[i] ==> 0 <= targets[i] < vocab && !Masked(targets[i]))
      && (vocab > 0 ==> exists j :: 0 <= j < vocab && !Masked(j))
      && (exists step :: Partition(blocks, 0, |targets|, step))
    }

    predicate Masked(j: int) { j >= 0 && j in masked }

    /** The chunk holds a masked id: the flags its kernels are given, if any. */
    predicate ChunkFlags(c0: int, c1: int)
      requires Increasing(masked)
    {
      PartitionPoint(masked, c0) < PartitionPoint(masked, c1)
    }

    /** The kernels' test of column j of the chunk. */
    predicate KernelMasks(c0: int, c1: int, j: int)
      requires Increasing(masked)
    {
      ChunkFlags(c0, c1) && Masked(c0 + j)
    }

    /** Where the row's valid target lies in the chunk, or -1. */
    function LocalTarget(row: nat, c0: int, c1: int): int
      requires row < |targets| == |valid|
    {
      if targets[row] >= c0 && targets[row] < c1 && valid[row] then targets[row] - c0 else -1
    }

    /** The chunks of the vocabulary. */
    function ChunkList(): seq<(int, int)>
      requires chunk > 0
    {
      StepBy(0, vocab, chunk)
    }
  }

  datatype Outcome = Ready(v: Vocabulary) | RowChunkZero | MaskedOutside | AllMasked

  function DivCeil(a: nat, b: nat): nat
    requires b > 0
  {
    (a + b - 1) / b
  }

  function RowBlock(n: nat, rowChunk: nat): nat
    requires rowChunk > 0
  {
    MaxInt(DivCeil(n, MaxInt(DivCeil(n, rowChunk), 1)), 1)
  }

  function InVocab(t: int, vocab: nat): bool { 0 <= t < vocab }

  /** The vocabulary for targets, masked ids and the chunk sizes, after the checks. */
  function New(vocab: nat, targets: seq<int>, masked: seq<nat>, vocabChunk: nat, rowChunk: nat): Outcome {
    var ids := SortDedup(masked);
    if rowChunk == 0 then RowChunkZero
    else if ids != [] && ids[|ids| - 1] >= vocab then MaskedOutside
    else if ids != [] && |ids| >= vocab then AllMasked
    else
      var clamped :=
        seq(|targets|, i requires 0 <= i < |targets| => if InVocab(targets[i], vocab) then targets[i] else 0);
      var valid := seq(|targets|, i requires 0 <= i < |targets| => InVocab(targets[i], vocab) && targets[i] !in ids);
      Ready(Vocabulary(vocab, ids, clamped, valid, if vocabChunk == 0 then DEFAULT_VOCAB_CHUNK else vocabChunk,
                       StepBy(0, |targets|, RowBlock(|targets|, rowChunk))))
  }

  // ----- what the checks leave -----

  /** No more ids than places: n increasing ids below a bound need a bound of at least n. */
  lemma {:induction false} IncreasingBound(s: seq<nat>, bound: int)
    requires Increasing(s) && forall i :: 0 <= i < |s| ==> s[i] < bound
    ensures |s| <= bound || s == []
    ensures |s| == bound ==> forall j :: 0 <= j < bound ==> j in s
    decreases |s|
  {
    if s != [] {
      var last := s[|s| - 1];
      IncreasingBound(s[..|s| - 1], last);
      assert s == s[..|s| - 1] + [last];
    }
  }

  /** Fewer masked ids than tokens leave a token unmasked. */
  lemma {:induction false} SomeUnmasked(s: seq<nat>, bound: nat) returns (j: nat)
    requires Increasing(s) && |s| < bound && forall i :: 0 <= i < |s| ==> s[i] < bound
    ensures j < bound && j !in s
    decreases bound
  {
    if s == [] || s[|s| - 1] != bound - 1 {
      j := bound - 1;
      if s != [] {
        assert forall i :: 0 <= i < |s| - 1 ==> s[i] < s[|s| - 1];
      }
    } else {
      assert s == s[..|s| - 1] + [bound - 1];
      j := SomeUnmasked(s[..|s| - 1], bound - 1);
    }
  }

  /** What `New` accepts, and what it then promises: a row is valid exactly if its target is a token
      that is not masked, and some token is not masked unless the vocabulary is empty. */
  lemma NewExact(vocab: nat, targets: seq<int>, masked: seq<nat>, vocabChunk: nat, rowChunk: nat)
    ensures New(vocab, targets, masked, vocabChunk, rowChunk).Ready?
       <==> rowChunk > 0 && (forall id :: id in masked ==> id < vocab)
            && (masked == [] || exists j :: 0 <= j < vocab && j !in masked)
    ensures var r := New(vocab, targets, masked, vocabChunk, rowChunk);
            r.Ready? ==>
              && r.v.WellFormed() && r.v.vocab == vocab && |r.v.targets| == |targets|
              && (forall j :: r.v.Masked(j) <==> j >= 0 && j in masked)
              && (forall i :: 0 <= i < |targets| ==>
                    (r.v.valid[i] <==> 0 <= targets[i] < vocab && !r.v.Masked(targets[i]))
                    && (r.v.valid[i] ==> r.v.targets[i] == targets[i]))
  {
    var ids := SortDedup(masked);
    var r := New(vocab, targets, masked, vocabChunk, rowChunk);
    if masked != [] {
      assert masked[0] in ids;
    }
    if ids != [] {
      assert ids[|ids| - 1] in masked;
      if ids[|ids| - 1] < vocab {
        IncreasingBound(ids, vocab);
        if |ids| < vocab {
          var j := SomeUnmasked(ids, vocab);
          assert r.Ready? ==> !r.v.Masked(j);
        }
      }
    } else if vocab > 0 {
      assert r.Ready? ==> !r.v.Masked(0);
    }
  }

  /** A chunk is given flags exactly if it holds a masked id, so its kernels skip exactly the masked
      tokens. */
  lemma KernelMasksExact(v: Vocabulary, c0: int, c1: int, j: int)
    requires Increasing(v.masked) && 0 <= c0 && 0 <= j < c1 - c0
    ensures v.ChunkFlags(c0, c1) <==> exists id :: id in v.masked && c0 <= id < c1
    ensures v.KernelMasks(c0, c1, j) <==> v.Masked(c0 + j)
  {
    var k0, k1 := PartitionPoint(v.masked, c0), PartitionPoint(v.masked, c1);
    if k0 < k1 {
      assert v.masked[k0] in v.masked;
    }
    if id :| id in v.masked && c0 <= id < c1 {
      var i :| 0 <= i < |v.masked| && v.masked[i] == id;
      assert k0 <= i < k1;
    }
    if v.Masked(c0 + j) {
      assert c0 <= c0 + j < c1;
    }
  }

  // ----- the blocks of rows -----

  lemma {:induction false} PieceCount(from: int, n: int, step: nat)
    requires step > 0 && from <= n
    ensures |StepBy(from, n, step)| == DivCeil(n - from, step)
    decreases n - from
  {
    hide DivCeil, Partition;
    if from + step <= n {
      PieceCount(from + step, n, step);
      DivCeilStep(n - (from + step), step);
    } else {
      assert StepBy(from + step, n, step) == [];
      DivCeilSmall(n - from, step);
    }
  }

  lemma DivCeilStep(a: nat, n: nat)
    requires n > 0
    ensures DivCeil(a + n, n) == DivCeil(a, n) + 1
  {
    QuotientIs(a + n - 1 + n, n, (a + n - 1) / n + 1);
  }

  lemma DivCeilSmall(a: nat, n: nat)
    requires a < n
    ensures DivCeil(a, n) == if a == 0 then 0 else 1
  {
    QuotientIs(a + n - 1, n, if a == 0 then 0 else 1);
  }

  lemma QuotientIs(x: int, n: int, q: int)
    requires n > 0 && q * n <= x < (q + 1) * n
    ensures x / n == q
  {
    var d := x / n - q;
    assert d * n == x - x % n - q * n;
    if d != 0 {
      MultipleOutside(d, n);
    }
  }

  lemma DivCeilBounds(a: nat, b: nat)
    requires b > 0
    ensures DivCeil(a, b) * b >= a
    ensures a > 0 ==> DivCeil(a, b) > 0 && (DivCeil(a, b) - 1) * b < a
  {
    var q := DivCeil(a, b);
    assert a + b - 1 == q * b + (a + b - 1) % b;
    if a > 0 && q <= 0 {
      ProductGrows(q, 0, b);
    }
  }

  /** k pieces of size at most c cover a iff a <= k c. */
  lemma DivCeilLeast(a: nat, b: nat, k: nat)
    requires b > 0 && a <= k * b
    ensures DivCeil(a, b) <= k
  {
    DivCeilBounds(a, b);
    if DivCeil(a, b) > k {
      ProductGrows(k, DivCeil(a, b) - 1, b);
    }
  }

  /** Rows dealt to as few blocks as the option allows fill blocks no larger than it, and as many. */
  lemma EvenBlocks(n: nat, rowChunk: nat)
    requires rowChunk > 0 && n > 0
    ensures var k := DivCeil(n, rowChunk);
            k > 0 && 0 < DivCeil(n, k) <= rowChunk && DivCeil(n, DivCeil(n, k)) == k
  {
    hide DivCeil;
    var k := DivCeil(n, rowChunk);
    DivCeilBounds(n, rowChunk);
    var block := DivCeil(n, k);
    DivCeilBounds(n, k);
    DivCeilLeast(n, k, rowChunk);
    DivCeilLeast(n, block, k);
    var count := DivCeil(n, block);
    DivCeilBounds(n, block);
    ProductGrows(block, rowChunk, count);
    DivCeilLeast(n, rowChunk, count);
  }

  /** The blocks partition the rows, none exceeds the option, and there are no more of them than
      blocks of that size would take. */
  lemma BlocksExact(n: nat, rowChunk: nat)
    requires rowChunk > 0
    ensures 1 <= RowBlock(n, rowChunk) <= rowChunk
    ensures Partition(StepBy(0, n, RowBlock(n, rowChunk)), 0, n, rowChunk)
    ensures |StepBy(0, n, RowBlock(n, rowChunk))| == DivCeil(n, rowChunk)
  {
    hide DivCeil;
    DivCeilSmall(0, rowChunk);
    if n > 0 {
      EvenBlocks(n, rowChunk);
      PieceCount(0, n, RowBlock(n, rowChunk));
    } else {
      DivCeilSmall(0, 1);
    }
  }

  /** The blocks of an accepted vocabulary are those. */
  lemma NewBlocks(vocab: nat, targets: seq<int>, masked: seq<nat>, vocabChunk: nat, rowChunk: nat)
    requires New(vocab, targets, masked, vocabChunk, rowChunk).Ready?
    ensures var v := New(vocab, targets, masked, vocabChunk, rowChunk).v;
            Partition(v.blocks, 0, |targets|, rowChunk) && |v.blocks| == DivCeil(|targets|, rowChunk)
  {
    hide SortDedup, DivCeil, Partition, StepBy;
    BlocksExact(|targets|, rowChunk);
  }
}
