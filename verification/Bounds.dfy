/** The bounds of packed sequences, as the convolution and the gated delta rule read them: 64-bit
    offsets narrowed to 32 bits before they are checked. */
module Bounds {
  import opened Integers

  /** The contract's check: from 0 to t without decreasing. */
  predicate Ordered(cu: seq<int>, t: int) {
    && |cu| >= 2 && cu[0] == 0 && cu[|cu| - 1] == t
    && forall s :: 0 <= s < |cu| - 1 ==> cu[s] <= cu[s + 1]
  }

  /** The offsets as the code checks and uses them. */
  function Narrow(cu: seq<int>): seq<int> { seq(|cu|, s requires 0 <= s < |cu| => Wrap32(cu[s])) }

  predicate Fits32(x: int) { -I32_MAX - 1 <= x <= I32_MAX }

  lemma {:induction false} OrderedBetween(cu: seq<int>, t: int, a: nat, b: nat)
    requires Ordered(cu, t) && a <= b < |cu|
    ensures cu[a] <= cu[b]
    decreases b - a
  {
    if a < b {
      OrderedBetween(cu, t, a, b - 1);
    }
  }

  lemma NarrowKeeps(cu: seq<int>)
    requires forall s :: 0 <= s < |cu| ==> Fits32(cu[s])
    ensures Narrow(cu) == cu
  {
    assert forall s :: 0 <= s < |cu| ==> Wrap32(cu[s]) == cu[s];
  }

  /** Offsets the contract takes are used as they are. */
  lemma OrderedKept(cu: seq<int>, t: int)
    requires 0 <= t <= I32_MAX && Ordered(cu, t)
    ensures Narrow(cu) == cu
  {
    forall s | 0 <= s < |cu|
      ensures Fits32(cu[s])
    {
      OrderedBetween(cu, t, 0, s);
      OrderedBetween(cu, t, s, |cu| - 1);
    }
    NarrowKeeps(cu);
  }

  /** The code's verdict is the contract's exactly unless offsets that do not fit 32 bits pass once
      narrowed. */
  lemma NarrowedExact(cu: seq<int>, t: int)
    requires 0 <= t <= I32_MAX
    ensures (Ordered(Narrow(cu), t) <==> Ordered(cu, t))
       <==> !(Ordered(Narrow(cu), t) && exists s :: 0 <= s < |cu| && !Fits32(cu[s]))
  {
    if Ordered(cu, t) {
      OrderedKept(cu, t);
      forall s | 0 <= s < |cu|
        ensures Fits32(cu[s])
      {
        OrderedBetween(cu, t, 0, s);
        OrderedBetween(cu, t, s, |cu| - 1);
      }
    } else if forall s :: 0 <= s < |cu| ==> Fits32(cu[s]) {
      NarrowKeeps(cu);
    }
  }

  /** Bounds that fall from 2^32 to t pass as 0, 0, t. */
  lemma FallingBoundsPass(t: int)
    requires 0 <= t <= I32_MAX
    ensures var cu := [0, 0x1_0000_0000, t];
            Narrow(cu) == [0, 0, t] && Ordered(Narrow(cu), t) && !Ordered(cu, t)
  {
    var cu := [0, 0x1_0000_0000, t];
    assert cu[1] > cu[2];
    assert Narrow(cu) == [0, 0, t];
  }

  /** Every step lies in exactly one sequence. */
  lemma {:induction false} StepInOneSequence(cu: seq<int>, t: int, u: int) returns (s: nat)
    requires Ordered(cu, t) && 0 <= u < t
    ensures s < |cu| - 1 && cu[s] <= u < cu[s + 1]
    ensures forall other :: 0 <= other < |cu| - 1 && cu[other] <= u < cu[other + 1] ==> other == s
  {
    s := 0;
    while cu[s + 1] <= u
      invariant 0 <= s < |cu| - 1 && cu[s] <= u
      decreases |cu| - s
    {
      s := s + 1;
    }
    forall other | 0 <= other < |cu| - 1 && cu[other] <= u < cu[other + 1]
      ensures other == s
    {
      if other < s {
        OrderedBetween(cu, t, other + 1, s);
      } else if s < other {
        OrderedBetween(cu, t, s + 1, other);
      }
    }
  }
}
