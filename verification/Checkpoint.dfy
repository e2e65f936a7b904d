/** Recompute for a stack of layers: the forward run that keeps each layer's input alone, the
    reverse walk that runs each layer again from it, and the layers' parameters, swapped for the
    transform's arrays and put back. */
module Checkpoint {
  import opened Sums
  import opened Vectors
  import opened Analysis

  /** A parameter's array: the layer's own, or the copy a gradient transform traces through. */
  datatype Array = Array(value: Vec, traced: bool)

  function Held(p: seq<Array>): seq<Vec> { seq(|p|, k requires 0 <= k < |p| => p[k].value) }

  function Traced(p: seq<Array>): seq<Array> {
    seq(|p|, k requires 0 <= k < |p| => Array(p[k].value, true))
  }

  /** What a layer computes from its trainable parameters and its input, with its directional derivative
      and the library's vector-Jacobian product; the layer and the product may fail. */
  datatype Kind = Kind(
    inDim: nat,
    outDim: nat,
    dims: seq<nat>,
    run: (seq<Vec>, Vec) -> Option<Vec>,
    jvp: (seq<Vec>, Vec, seq<Vec>, Vec) -> Vec,
    vjp: (seq<Vec>, Vec, Vec) -> Option<(Vec, seq<Vec>)>
  ) {

    /** The inner product over the parameters. */
    function InnerParams(a: seq<Vec>, b: seq<Vec>): real
      requires |a| == |b| == |dims|
    {
      Sum(0, |dims|, k => if 0 <= k < |dims| then Dot(dims[k], a[k], b[k]) else 0.0)
    }

    /** The product where it succeeds. */
    function Product(p: seq<Vec>, x: Vec, g: Vec): (Vec, seq<Vec>) {
      match vjp(p, x, g)
      case None => (i => 0.0, [])
      case Some(v) => v
    }

    ghost predicate AdjointAt(p: seq<Vec>, x: Vec, g: Vec, dp: seq<Vec>, dx: Vec) {
      run(p, x).Some? && vjp(p, x, g).Some? && |p| == |dp| == |dims| ==>
        && |Product(p, x, g).1| == |dims|
        && Dot(outDim, g, jvp(p, x, dp, dx)) == Dot(inDim, Product(p, x, g).0, dx) + InnerParams(Product(p, x, g).1, dp)
    }

    /** The product is adjoint to the derivative wherever the two succeed. */
    ghost predicate Correct() {
      forall p, x, g, dp, dx :: AdjointAt(p, x, g, dp, dx)
    }
  }

  // ----- plain reverse mode -----

  /** A stack: its layers' kinds and their parameters' values. */
  datatype Stack = Stack(kinds: seq<Kind>, params: seq<seq<Vec>>) {

    predicate Valid() {
      && |params| == |kinds|
      && (forall i :: 0 <= i < |kinds| ==> |params[i]| == |kinds[i].dims|)
      && (forall i :: 0 < i < |kinds| ==> kinds[i].inDim == kinds[i - 1].outDim)
    }

    /** The dimension before layer i, or after the last. */
    function Dim(i: nat): nat
      requires Valid() && i <= |kinds| && |kinds| > 0
    {
      if i < |kinds| then kinds[i].inDim else kinds[i - 1].outDim
    }

    /** The composition of the layers below i. */
    function Prefix(x: Vec, i: nat): Option<Vec>
      requires Valid() && i <= |kinds|
    {
      if i == 0 then Some(x) else
        match Prefix(x, i - 1)
        case None => None
        case Some(h) => kinds[i - 1].run(params[i - 1], h)
    }

    /** The derivative of that composition along the parameters' and the input's directions. */
    function Along(x: Vec, dp: seq<seq<Vec>>, dx: Vec, i: nat): Vec
      requires Valid() && i <= |kinds| && |dp| == |kinds|
    {
      if i == 0 then dx else
        match Prefix(x, i - 1)
        case None => dx
        case Some(h) => kinds[i - 1].jvp(params[i - 1], h, dp[i - 1], Along(x, dp, dx, i - 1))
    }

    /** The gradient before layer i, from the inputs of the layers and the gradient of the output. */
    function Back(inputs: seq<Vec>, grad: Vec, i: nat): Vec
      requires Valid() && |inputs| == |kinds| && i <= |kinds|
      decreases |kinds| - i
    {
      if i == |kinds| then grad else kinds[i].Product(params[i], inputs[i], Back(inputs, grad, i + 1)).0
    }

    /** Layer i's parameter gradients. */
    function ParamGrads(inputs: seq<Vec>, grad: Vec, i: nat): seq<Vec>
      requires Valid() && |inputs| == |kinds| && i < |kinds|
    {
      kinds[i].Product(params[i], inputs[i], Back(inputs, grad, i + 1)).1
    }

    /** Layer i runs on its kept input and its product succeeds. */
    predicate Reruns(inputs: seq<Vec>, grad: Vec, i: nat)
      requires Valid() && |inputs| == |kinds| && i < |kinds|
    {
      && kinds[i].run(params[i], inputs[i]).Some?
      && kinds[i].vjp(params[i], inputs[i], Back(inputs, grad, i + 1)).Some?
    }

    /** The layers' inputs are the compositions below them. */
    ghost predicate ArePrefixes(inputs: seq<Vec>, x: Vec)
      requires Valid()
    {
      |inputs| == |kinds| && forall i :: 0 <= i < |kinds| ==> Prefix(x, i) == Some(inputs[i])
    }
  }

  function ParamTerms(s: Stack, inputs: seq<Vec>, grad: Vec, dp: seq<seq<Vec>>): Vec
    requires s.Valid() && |inputs| == |s.kinds| == |dp|
    requires forall i :: 0 <= i < |dp| ==> |dp[i]| == |s.kinds[i].dims|
  {
    i => if 0 <= i < |s.kinds| && |s.ParamGrads(inputs, grad, i)| == |s.kinds[i].dims|
         then s.kinds[i].InnerParams(s.ParamGrads(inputs, grad, i), dp[i]) else 0.0
  }

  lemma {:induction false} PrefixesRun(s: Stack, x: Vec, i: nat)
    requires s.Valid() && i <= |s.kinds| && s.Prefix(x, |s.kinds|).Some?
    ensures s.Prefix(x, i).Some?
    decreases |s.kinds| - i
  {
    if i < |s.kinds| {
      PrefixesRun(s, x, i + 1);
    }
  }

  /** Reverse mode below layer i: what the derivative there pairs with is the input's part and the
      parameters' parts of the layers below. */
  lemma {:induction false} AdjointBelow(s: Stack, inputs: seq<Vec>, x: Vec, grad: Vec, dp: seq<seq<Vec>>, dx: Vec,
                                        i: nat)
    requires s.Valid() && 0 < |s.kinds| == |dp| && i <= |s.kinds|
    requires s.ArePrefixes(inputs, x) && forall j :: 0 <= j < |s.kinds| ==> s.Reruns(inputs, grad, j)
    requires forall j :: 0 <= j < |s.kinds| ==> s.kinds[j].Correct()
    requires forall j :: 0 <= j < |dp| ==> |dp[j]| == |s.kinds[j].dims|
    ensures Dot(s.Dim(i), s.Back(inputs, grad, i), s.Along(x, dp, dx, i))
         == Dot(s.Dim(0), s.Back(inputs, grad, 0), dx) + Sum(0, i, ParamTerms(s, inputs, grad, dp))
    decreases i
  {
    hide Dot, Kind.InnerParams, Kind.Product;
    if i > 0 {
      var k := s.kinds[i - 1];
      var h, g, d := inputs[i - 1], s.Back(inputs, grad, i), s.Along(x, dp, dx, i - 1);
      AdjointBelow(s, inputs, x, grad, dp, dx, i - 1);
      assert s.Reruns(inputs, grad, i - 1);
      assert s.Prefix(x, i - 1) == Some(h);
      assert k.AdjointAt(s.params[i - 1], h, g, dp[i - 1], d);
    }
  }

  /** The whole stack: the gradients of the input and of every layer's parameters are adjoint to its
      derivative. */
  lemma StackAdjoint(s: Stack, inputs: seq<Vec>, x: Vec, grad: Vec, dp: seq<seq<Vec>>, dx: Vec)
    requires s.Valid() && 0 < |s.kinds| == |dp|
    requires s.ArePrefixes(inputs, x) && forall j :: 0 <= j < |s.kinds| ==> s.Reruns(inputs, grad, j)
    requires forall j :: 0 <= j < |s.kinds| ==> s.kinds[j].Correct()
    requires forall j :: 0 <= j < |dp| ==> |dp[j]| == |s.kinds[j].dims|
    ensures Dot(s.Dim(|s.kinds|), grad, s.Along(x, dp, dx, |s.kinds|))
         == Dot(s.Dim(0), s.Back(inputs, grad, 0), dx) + Sum(0, |s.kinds|, ParamTerms(s, inputs, grad, dp))
  {
    AdjointBelow(s, inputs, x, grad, dp, dx, |s.kinds|);
  }

  // ----- the layers -----

  /** A layer and the arrays it holds, by parameter. */
  class Layer {
    const kind: Kind
    var params: seq<Array>

    constructor (kind: Kind, params: seq<Array>)
      ensures this.kind == kind && this.params == params
    {
      this.kind := kind;
      this.params := params;
    }

    /** `update_flattened`: other arrays in the parameters' places. */
    method Update(arrays: seq<Array>)
      modifies this
      ensures params == arrays
    {
      params := arrays;
    }

    /** The layer on an input, with the arrays it holds. */
    method Run(x: Vec) returns (y: Option<Vec>)
      ensures y == kind.run(Held(params), x)
    {
      y := kind.run(Held(params), x);
    }

    /** `fallible_vjp` of the layer: run on the transform's copies of the arrays, which it is left
        holding whether it succeeds or not. */
    method Differentiate(x: Vec, g: Vec) returns (r: Option<(Vec, seq<Vec>)>)
      modifies this
      ensures params == Traced(old(params))
      ensures r == if kind.run(Held(old(params)), x).Some? then kind.vjp(Held(old(params)), x, g) else None
    {
      var own := params;
      Update(Traced(own));
      assert Held(params) == Held(own);
      var y := Run(x);
      match y {
        case None => r := None;
        case Some(_) => r := kind.vjp(Held(own), x, g);
      }
    }
  }

  function KindsOf(layers: seq<Layer>): seq<Kind> {
    seq(|layers|, i requires 0 <= i < |layers| => layers[i].kind)
  }

  /** The stack the layers make. */
  function StackOf(layers: seq<Layer>): Stack
    reads layers
  {
    Stack(KindsOf(layers), seq(|layers|, i requires 0 <= i < |layers| reads layers => Held(layers[i].params)))
  }

  ghost predicate Distinct(layers: seq<Layer>) {
    forall i, j :: 0 <= i < j < |layers| ==> layers[i] != layers[j]
  }

  datatype Result<T> = Ok(value: T) | Err

  /** `forward`: each layer's input evaluated and kept, its output the next one's; `evaluates` says which
      of the evaluations succeed. */
  method Forward(layers: seq<Layer>, x: Vec, evaluates: int -> bool) returns (r: Result<(Vec, seq<Vec>)>)
    requires StackOf(layers).Valid()
    ensures r.Ok? <==> StackOf(layers).Prefix(x, |layers|).Some? && forall i :: 0 <= i <= |layers| ==> evaluates(i)
    ensures r.Ok? ==> Some(r.value.0) == StackOf(layers).Prefix(x, |layers|)
    ensures r.Ok? ==> StackOf(layers).ArePrefixes(r.value.1, x)
  {
    hide StackOf, KindsOf, Stack.Prefix, Stack.Valid;
    ghost var s := StackOf(layers);
    StackIs(layers);
    PrefixStep(s, x);
    var inputs: seq<Vec> := [];
    var h := x;
    for i := 0 to |layers|
      invariant s.Prefix(x, i) == Some(h)
      invariant forall j :: 0 <= j < i ==> evaluates(j)
      invariant |inputs| == i && forall j :: 0 <= j < i ==> s.Prefix(x, j) == Some(inputs[j])
    {
      if !evaluates(i) {
        return Err;
      }
      inputs := inputs + [h];
      var y := layers[i].Run(h);
      assert s.Prefix(x, i + 1) == y;
      match y {
        case None =>
          if s.Prefix(x, |layers|).Some? {
            PrefixesRun(s, x, i + 1);
          }
          return Err;
        case Some(out) =>
          h := out;
      }
    }
    if !evaluates(|layers|) {
      return Err;
    }
    r := Ok((h, inputs));
  }

  lemma StackIs(layers: seq<Layer>)
    ensures |StackOf(layers).kinds| == |layers| == |StackOf(layers).params|
    ensures forall i :: 0 <= i < |layers| ==>
      StackOf(layers).kinds[i] == layers[i].kind && StackOf(layers).params[i] == Held(layers[i].params)
  {
  }

  lemma PrefixStep(s: Stack, x: Vec)
    requires s.Valid()
    ensures s.Prefix(x, 0) == Some(x)
    ensures forall i :: 0 <= i < |s.kinds| && s.Prefix(x, i).Some? ==>
      s.Prefix(x, i + 1) == s.kinds[i].run(s.params[i], s.Prefix(x, i).value)
  {
  }

  /** Where a backward walk stopped. */
  datatype Stop = Nowhere | Lengths | InLayer(at: nat) | InEvaluation(at: nat)

  /** Layer i is where the walk fails: it, or the product through it, while every layer after it ran, its
      product too, and was evaluated. */
  ghost predicate LeftTraced(s: Stack, inputs: seq<Vec>, grad: Vec, evaluates: int -> bool, i: nat)
    requires s.Valid() && |inputs| == |s.kinds| && i < |s.kinds|
  {
    !s.Reruns(inputs, grad, i) && forall j :: i < j < |s.kinds| ==> s.Reruns(inputs, grad, j) && evaluates(j)
  }

  /** What is known of where the walk stopped. */
  ghost predicate StoppedAt(s: Stack, inputs: seq<Vec>, grad: Vec, evaluates: int -> bool, stop: Stop)
    requires s.Valid() && |inputs| == |s.kinds|
  {
    match stop
    case Nowhere => forall j :: 0 <= j < |s.kinds| ==> s.Reruns(inputs, grad, j) && evaluates(j)
    case Lengths => false
    case InLayer(i) => i < |s.kinds| && LeftTraced(s, inputs, grad, evaluates, i)
    case InEvaluation(i) =>
      && i < |s.kinds| && s.Reruns(inputs, grad, i) && !evaluates(i)
      && forall j :: i < j < |s.kinds| ==> s.Reruns(inputs, grad, j) && evaluates(j)
  }

  /** The walk stops in the one layer that is where it fails, if there is one. */
  lemma StopIs(s: Stack, inputs: seq<Vec>, grad: Vec, evaluates: int -> bool, stop: Stop)
    requires s.Valid() && |inputs| == |s.kinds| && StoppedAt(s, inputs, grad, evaluates, stop)
    ensures forall i :: 0 <= i < |s.kinds| ==> (stop == InLayer(i) <==> LeftTraced(s, inputs, grad, evaluates, i))
  {
    hide Stack.Reruns;
    forall i | 0 <= i < |s.kinds| && LeftTraced(s, inputs, grad, evaluates, i)
      ensures stop == InLayer(i)
    {
      assert stop.InLayer? ==> stop.at >= i;
    }
  }

  /** `backward`: from the last layer to the first, each run again from its kept input. It succeeds exactly
      if there are as many inputs as layers and every layer, product and evaluation does; the gradients
      are then plain reverse mode's. A layer that fails, or whose product does, is left with the
      transform's arrays; every other layer, and every layer after any other stop, has its own. */
  method Backward(layers: seq<Layer>, inputs: seq<Vec>, grad: Vec, evaluates: int -> bool)
    returns (r: Result<(Vec, seq<seq<Vec>>)>, stop: Stop)
    requires StackOf(layers).Valid() && Distinct(layers)
    modifies layers
    ensures r.Ok? <==> stop == Nowhere
    ensures stop == Lengths <==> |inputs| != |layers|
    ensures |inputs| == |layers| ==>
      var s, n := old(StackOf(layers)), |layers|;
      && (r.Ok? <==> forall i :: 0 <= i < n ==> s.Reruns(inputs, grad, i) && evaluates(i))
      && (r.Ok? ==> |r.value.1| == n && r.value.0 == s.Back(inputs, grad, 0)
                    && forall i :: 0 <= i < n ==> r.value.1[i] == s.ParamGrads(inputs, grad, i))
      && StoppedAt(s, inputs, grad, evaluates, stop)
    ensures forall i :: 0 <= i < |layers| ==>
      layers[i].params
      == if |inputs| == |layers| && LeftTraced(old(StackOf(layers)), inputs, grad, evaluates, i)
         then Traced(old(layers[i].params)) else old(layers[i].params)
  {
    hide StackOf, KindsOf, Stack.Valid, Held;
    StackIs(layers);
    if |inputs| != |layers| {
      return Err, Lengths;
    }
    ghost var s := StackOf(layers);
    var n := |layers|;
    var grads: seq<seq<Vec>> := seq(n, _ => []);
    var g := grad;
    var i := n;
    while i > 0
      invariant 0 <= i <= n && |grads| == n
      invariant g == s.Back(inputs, grad, i)
      invariant forall j :: i <= j < n ==> s.Reruns(inputs, grad, j) && evaluates(j)
      invariant forall j :: i <= j < n ==> grads[j] == s.ParamGrads(inputs, grad, j)
      invariant forall j :: 0 <= j < n ==> layers[j].params == old(layers[j].params)
    {
      i := i - 1;
      var own := layers[i].params;
      var vjps := layers[i].Differentiate(inputs[i], g);
      match vjps {
        case None =>
          assert !s.Reruns(inputs, grad, i);
          StopIs(s, inputs, grad, evaluates, InLayer(i));
          return Err, InLayer(i);
        case Some(v) =>
          layers[i].Update(own);
          if !evaluates(i) {
            StopIs(s, inputs, grad, evaluates, InEvaluation(i));
            return Err, InEvaluation(i);
          }
          g := v.0;
          grads := grads[i := v.1];
      }
    }
    r, stop := Ok((g, grads)), Nowhere;
    StopIs(s, inputs, grad, evaluates, stop);
  }

  /** A step of training: forward, then backward from what it kept, on layers nothing changed between. The
      layers themselves cannot fail the second time; a product or an evaluation can. */
  method ForwardThenBackward(layers: seq<Layer>, x: Vec, grad: Vec, first: int -> bool, second: int -> bool)
    returns (r: Result<(Vec, seq<seq<Vec>>)>, ghost inputs: seq<Vec>, stop: Stop)
    requires StackOf(layers).Valid() && Distinct(layers)
    modifies layers
    ensures r.Ok? ==>
      && old(StackOf(layers)).Prefix(x, |layers|).Some? && old(StackOf(layers)).ArePrefixes(inputs, x)
      && |r.value.1| == |layers| && r.value.0 == old(StackOf(layers)).Back(inputs, grad, 0)
      && forall i :: 0 <= i < |layers| ==>
           old(StackOf(layers)).Reruns(inputs, grad, i)
           && r.value.1[i] == old(StackOf(layers)).ParamGrads(inputs, grad, i)
    ensures
      (r.Err? && old(StackOf(layers)).Prefix(x, |layers|).Some? && forall i :: 0 <= i <= |layers| ==> first(i)) ==>
      && old(StackOf(layers)).ArePrefixes(inputs, x)
      && exists i :: 0 <= i < |layers| && (!second(i) || ProductFails(old(StackOf(layers)), inputs, grad, i))
    ensures forall i :: 0 <= i < |layers| ==>
      layers[i].params == if stop == InLayer(i) then Traced(old(layers[i].params)) else old(layers[i].params)
    ensures stop.InLayer? ==>
      && old(StackOf(layers)).ArePrefixes(inputs, x)
      && stop.at < |layers| && ProductFails(old(StackOf(layers)), inputs, grad, stop.at)
  {
    hide Stack.Back, Stack.Prefix;
    inputs := [];
    var f := Forward(layers, x, first);
    match f {
      case Err =>
        return Err, [], Nowhere;
      case Ok(kept) =>
        ghost var s := StackOf(layers);
        inputs := kept.1;
        InputsRun(s, x, inputs);
        r, stop := Backward(layers, kept.1, grad, second);
        StopIs(s, inputs, grad, second, stop);
        match stop {
          case InLayer(at) => assert ProductFails(s, inputs, grad, at);
          case InEvaluation(at) => assert !second(at);
          case _ =>
        }
    }
  }

  /** The library's product fails on a layer that runs. */
  predicate ProductFails(s: Stack, inputs: seq<Vec>, grad: Vec, i: nat)
    requires s.Valid() && |inputs| == |s.kinds| && i < |s.kinds|
  {
    s.kinds[i].run(s.params[i], inputs[i]).Some? && !s.Reruns(inputs, grad, i)
  }

  /** A layer that ran on its input runs on it again. */
  lemma InputsRun(s: Stack, x: Vec, inputs: seq<Vec>)
    requires s.Valid() && s.ArePrefixes(inputs, x) && s.Prefix(x, |s.kinds|).Some?
    ensures forall i :: 0 <= i < |s.kinds| ==> s.kinds[i].run(s.params[i], inputs[i]).Some?
  {
    forall i | 0 <= i < |s.kinds|
      ensures s.kinds[i].run(s.params[i], inputs[i]).Some?
    {
      PrefixesRun(s, x, i + 1);
    }
  }

  /** The identity on one number, with a parameter it does not read; its product may fail. */
  function Identity(works: bool): Kind {
    Kind(1, 1, [1], (p, x) => Some(x), (p, x, dp, dx) => dx,
         (p, x, g) => if works then Some((g, [i => 0.0])) else None)
  }

  /** Three layers of which the middle one's product fails. */
  function BrokenStack(): Stack {
    Stack([Identity(true), Identity(false), Identity(true)], [[i => 1.0], [i => 1.0], [i => 1.0]])
  }

  function Always(): int -> bool { j => true }

  /** It runs forward, and going back the middle layer, no other, is left with the transform's arrays. */
  lemma MiddleLeftTraced(x: Vec, grad: Vec)
    ensures var s, inputs := BrokenStack(), [x, x, x];
            && s.Valid() && s.ArePrefixes(inputs, x) && s.Prefix(x, 3) == Some(x)
            && LeftTraced(s, inputs, grad, Always(), 1)
            && !LeftTraced(s, inputs, grad, Always(), 0) && !LeftTraced(s, inputs, grad, Always(), 2)
  {
    var s, inputs := BrokenStack(), [x, x, x];
    assert s.Prefix(x, 0) == s.Prefix(x, 1) == s.Prefix(x, 2) == s.Prefix(x, 3) == Some(x);
    assert s.Reruns(inputs, grad, 2) && !s.Reruns(inputs, grad, 1);
  }
}
