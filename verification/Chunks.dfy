/** Walking a range in steps: the blocks of rows, of queries, of keys and of the vocabulary. */
module Chunks {
  import opened Analysis

  /** Consecutive pieces of from..n, each of 1 to `step` places, none left out. */
  ghost predicate Partition(s: seq<(int, int)>, from: int, n: int, step: int) {
    && (s == [] <==> n <= from)
    && (forall b :: 0 <= b < |s| ==> s[b].0 < s[b].1 <= s[b].0 + step && from <= s[b].0 && s[b].1 <= n)
    && (s != [] ==> s[0].0 == from && s[|s| - 1].1 == n)
    && (forall b :: 0 <= b < |s| - 1 ==> s[b].1 == s[b + 1].0)
    && (forall b, b' :: 0 <= b < b' < |s| ==> s[b].1 <= s[b'].0)
  }

  /** `(from..n).step_by(step)`, each step up to the next or to n. */
  function StepBy(from: int, n: int, step: nat): (s: seq<(int, int)>)
    requires step > 0
    ensures Partition(s, from, n, step)
    decreases n - from
  {
    if n <= from then [] else [(from, MinInt(from + step, n))] + StepBy(from + step, n, step)
  }

  /** Every place of the range lies in exactly one piece. */
  lemma {:induction false} ExactlyOnePiece(s: seq<(int, int)>, from: int, n: int, step: int, i: int)
    requires Partition(s, from, n, step) && from <= i < n
    ensures exists b :: 0 <= b < |s| && s[b].0 <= i < s[b].1
    ensures forall b, b' :: 0 <= b < |s| && 0 <= b' < |s| && s[b].0 <= i < s[b].1 && s[b'].0 <= i < s[b'].1 ==> b == b'
    decreases |s|
  {
    var last := |s| - 1;
    if s[last].0 <= i {
      assert s[last].0 <= i < s[last].1;
    } else {
      assert last > 0;
      var init := s[..last];
      assert init[|init| - 1].1 == s[last].0;
      ExactlyOnePiece(init, from, s[last].0, step, i);
      var b :| 0 <= b < |init| && init[b].0 <= i < init[b].1;
      assert s[b] == init[b];
    }
  }
}
