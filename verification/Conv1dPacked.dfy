/** The convolution over packed sequences: the bounds it accepts, and one call a sequence, each from
    its own state, joined end to end. */
module Conv1dPacked {
  import opened Sums
  import opened Analysis
  import opened Bounds
  import opened Conv1d

  /** One channel of a packed call: t steps of x, sequence s after the state states(s). */
  datatype Packed = Packed(e: Exponential, k: nat, t: nat, w: nat, silu: bool, weight: Vec, bias: real, x: Vec,
                           states: int -> Vec) {

    ghost predicate Valid() { e.Laws() && k >= 1 && w >= k - 1 }

    /** Sequence s, the steps from..to, on its own. */
    function Part(s: int, from: int, to: int): Conv
      requires from <= to
    {
      Conv(e, k, to - from, w, silu, weight, bias, u => x(from + u), states(s))
    }
  }

  /** Sequence s holds its own outputs, in its place. */
  ghost predicate PartHolds(p: Packed, cu: seq<int>, s: nat, outs: seq<real>)
    requires p.Valid() && s + 1 < |cu|
  {
    && 0 <= cu[s] <= cu[s + 1] <= |outs|
    && forall u :: cu[s] <= u < cu[s + 1] ==> outs[u] == p.Part(s, cu[s], cu[s + 1]).Out(u - cu[s])
  }

  /** The sequence's final state. */
  ghost predicate FinalHolds(p: Packed, cu: seq<int>, s: nat, final: seq<real>, len: nat)
    requires s + 1 < |cu|
  {
    && cu[s] <= cu[s + 1] && |final| == len
    && forall i :: 0 <= i < len ==> final[i] == p.Part(s, cu[s], cu[s + 1]).LastSteps(len)(i)
  }

  ghost predicate AllHold(p: Packed, cu: seq<int>, n: nat, outs: seq<real>, finals: seq<seq<real>>, len: nat)
    requires p.Valid() && n < |cu|
  {
    |finals| == n && forall s :: 0 <= s < n ==> PartHolds(p, cu, s, outs) && FinalHolds(p, cu, s, finals[s], len)
  }

  /** `convolve` with bounds: refused unless they are ordered once narrowed; else every sequence as a
      call on it alone, its outputs and final state in its place, and t outputs in all. */
  method Convolve(p: Packed, offsets: seq<int>, run: nat, finalLen: nat)
    returns (r: Option<(seq<real>, seq<seq<real>>)>)
    requires p.Valid() && run > 0
    ensures r.Some? <==> Ordered(Narrow(offsets), p.t)
    ensures r.Some? ==>
      |r.value.0| == p.t && AllHold(p, Narrow(offsets), |offsets| - 1, r.value.0, r.value.1, finalLen)
  {
    hide AllHold;
    var cu := Narrow(offsets);
    if !Ordered(cu, p.t) {
      return None;
    }
    var outs: seq<real>, finals: seq<seq<real>> := [], [];
    assert AllHold(p, cu, 0, outs, finals, finalLen) by { NoneYet(p, cu, finalLen); }
    for s := 0 to |cu| - 1
      invariant |outs| == cu[s]
      invariant AllHold(p, cu, s, outs, finals, finalLen)
    {
      var out, last := Sequence(p, cu, s, run, finalLen);
      Joined(p, cu, s, outs, finals, out, last, finalLen);
      outs, finals := outs + out, finals + [last];
    }
    r := Some((outs, finals));
  }

  lemma NoneYet(p: Packed, cu: seq<int>, len: nat)
    requires p.Valid() && 0 < |cu|
    ensures AllHold(p, cu, 0, [], [], len)
  {
  }

  /** One sequence: `batch` on its steps and its state. */
  method Sequence(p: Packed, cu: seq<int>, s: nat, run: nat, finalLen: nat) returns (out: seq<real>, last: seq<real>)
    requires p.Valid() && run > 0 && s + 1 < |cu| && cu[s] <= cu[s + 1]
    ensures |out| == cu[s + 1] - cu[s]
    ensures forall u :: 0 <= u < |out| ==> out[u] == p.Part(s, cu[s], cu[s + 1]).Out(u)
    ensures FinalHolds(p, cu, s, last, finalLen)
  {
    hide TakeLast, History, Conv.Out;
    var part := p.Part(s, cu[s], cu[s + 1]);
    var buffer := Forward(part, run);
    out := buffer[..];
    last := TakeLast(History(part), finalLen);
    TakeLastIsLastSteps(part, finalLen);
  }

  lemma Joined(p: Packed, cu: seq<int>, s: nat, outs: seq<real>, finals: seq<seq<real>>, out: seq<real>,
               last: seq<real>, len: nat)
    requires p.Valid() && s + 1 < |cu| && |outs| == cu[s] <= cu[s + 1] && |out| == cu[s + 1] - cu[s]
    requires AllHold(p, cu, s, outs, finals, len)
    requires forall u :: 0 <= u < |out| ==> out[u] == p.Part(s, cu[s], cu[s + 1]).Out(u)
    requires FinalHolds(p, cu, s, last, len)
    ensures AllHold(p, cu, s + 1, outs + out, finals + [last], len)
  {
    hide PartHolds, FinalHolds, Conv.Out;
    PartJoined(p, cu, s, outs, out);
    forall a | 0 <= a < s
      ensures PartHolds(p, cu, a, outs + out)
    {
      PartKept(p, cu, a, outs, out);
    }
  }

  lemma PartJoined(p: Packed, cu: seq<int>, s: nat, before: seq<real>, out: seq<real>)
    requires p.Valid() && s + 1 < |cu| && 0 <= cu[s] <= cu[s + 1] && |before| == cu[s] && |out| == cu[s + 1] - cu[s]
    requires forall u :: 0 <= u < |out| ==> out[u] == p.Part(s, cu[s], cu[s + 1]).Out(u)
    ensures PartHolds(p, cu, s, before + out)
  {
    hide Conv.Out;
  }

  lemma PartKept(p: Packed, cu: seq<int>, s: nat, before: seq<real>, more: seq<real>)
    requires p.Valid() && s + 1 < |cu| && PartHolds(p, cu, s, before)
    ensures PartHolds(p, cu, s, before + more)
  {
    hide Conv.Out;
  }

  /** What sequence s, whose first step is `from`, has before and at the batch's step v: the batch's own inputs,
      before them the sequence's state, before that zeros. */
  function PackedHistory(p: Packed, s: int, from: int, v: int): real {
    if v >= from then p.x(v) else if v >= from - p.w then p.states(s)(v - (from - p.w)) else 0.0
  }

  function PackedTaps(p: Packed, s: int, from: int, u: int): Vec {
    j => p.weight(j) * PackedHistory(p, s, from, u + 1 - p.k + j)
  }

  lemma PackedHistoryIs(p: Packed, s: int, from: int, to: int, v: int)
    requires from <= to && v < to
    ensures p.Part(s, from, to).H(v - from) == PackedHistory(p, s, from, v)
  {
    assert p.w + (v - from) == v - (from - p.w);
  }

  /** Step u's output and the final state, by the batch's steps and the sequence's state. */
  lemma PackedIs(p: Packed, cu: seq<int>, s: nat, outs: seq<real>, final: seq<real>, len: nat)
    requires p.Valid() && s + 1 < |cu| && PartHolds(p, cu, s, outs) && FinalHolds(p, cu, s, final, len)
    ensures forall u :: cu[s] <= u < cu[s + 1] ==>
      outs[u] == Activate(p.e, p.silu, Sum(0, p.k, PackedTaps(p, s, cu[s], u)) + p.bias)
    ensures forall i :: 0 <= i < len ==> final[i] == PackedHistory(p, s, cu[s], cu[s + 1] - len + i)
  {
    hide Sum, PackedHistory, Conv.H, Activate;
    var from, to := cu[s], cu[s + 1];
    var part := p.Part(s, from, to);
    forall u | from <= u < to
      ensures outs[u] == Activate(p.e, p.silu, Sum(0, p.k, PackedTaps(p, s, from, u)) + p.bias)
    {
      forall j | 0 <= j < p.k
        ensures part.Taps(u - from)(j) == PackedTaps(p, s, from, u)(j)
      {
        PackedHistoryIs(p, s, from, to, u + 1 - p.k + j);
        assert u - from - (p.k - 1) + j == u + 1 - p.k + j - from;
      }
      SumEqual(0, p.k, part.Taps(u - from), PackedTaps(p, s, from, u));
    }
    forall i | 0 <= i < len
      ensures final[i] == PackedHistory(p, s, from, to - len + i)
    {
      PackedHistoryIs(p, s, from, to, to - len + i);
      assert part.t - len + i == to - len + i - from;
    }
  }

  /** No step reads another sequence: two packs alike on a sequence's steps and state, whatever the
      rest of them holds, give it the same outputs. */
  lemma SequencesAreIndependent(p: Packed, q: Packed, s: int, from: int, to: int, u: int)
    requires p.Valid() && from <= to && 0 <= u < to - from
    requires q == p.(x := q.x, states := q.states, t := q.t)
    requires forall v :: from <= v < to ==> p.x(v) == q.x(v)
    requires forall i :: 0 <= i < p.w ==> p.states(s)(i) == q.states(s)(i)
    ensures p.Part(s, from, to).Out(u) == q.Part(s, from, to).Out(u)
  {
    hide Sum;
    var a, b := p.Part(s, from, to), q.Part(s, from, to);
    forall j | 0 <= j < p.k
      ensures a.Taps(u)(j) == b.Taps(u)(j)
    {
      assert a.H(u - (p.k - 1) + j) == b.H(u - (p.k - 1) + j);
    }
    SumEqual(0, p.k, a.Taps(u), b.Taps(u));
  }
}
