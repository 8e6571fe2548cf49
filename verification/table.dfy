/** The numbers of a network without the graph: one (weights, bias) record
    per neuron, laid out layer by layer as the save routine writes them
    (nn/engine.go:23-30), and the forward pass computed on them directly in
    reals. */
module Table {

  datatype NeuronState = NeuronState(weights: seq<real>, bias: real)

  /** The pre-activation of Neuron.Call after its first k terms: start from
      the bias and add w[i] * x[i] in index order. */
  function Fold(b: real, ws: seq<real>, xs: seq<real>, k: nat): real
    requires k <= |ws| && k <= |xs|
  {
    if k == 0 then b else Fold(b, ws, xs, k - 1) + ws[k - 1] * xs[k - 1]
  }

  /** tanh(b + sum of w[i] * x[i]); inputs beyond the weights are ignored. */
  function NeuronOut(s: NeuronState, xs: seq<real>, th: real -> real): real
    requires |s.weights| <= |xs|
  {
    th(Fold(s.bias, s.weights, xs, |s.weights|))
  }

  /** Every neuron of a layer sees the same input. */
  function LayerOut(ss: seq<NeuronState>, xs: seq<real>, th: real -> real): (ys: seq<real>)
    requires forall j :: 0 <= j < |ss| ==> |ss[j].weights| <= |xs|
  {
    seq(|ss|, j requires 0 <= j < |ss| => NeuronOut(ss[j], xs, th))
  }

  /** The number of weights of every neuron, layer by layer. */
  function Shape(t: seq<seq<NeuronState>>): (sh: seq<seq<nat>>)
    ensures |sh| == |t|
    ensures forall i :: 0 <= i < |t| ==> |sh[i]| == |t[i]|
    ensures forall i, j :: 0 <= i < |t| && 0 <= j < |t[i]| ==> sh[i][j] == |t[i][j].weights|
  {
    seq(|t|, i requires 0 <= i < |t| => seq(|t[i]|, j requires 0 <= j < |t[i]| => |t[i][j].weights|))
  }

  lemma ShapeTail(t: seq<seq<NeuronState>>)
    requires |t| > 0
    ensures Shape(t[1..]) == Shape(t)[1..]
  {
  }

  /** A network of this shape accepts an input of length k: no neuron has
      more weights than its layer receives values (a shorter input makes the
      source index past the end of the slice). */
  predicate Accepts(sh: seq<seq<nat>>, k: nat)
    decreases |sh|
  {
    |sh| == 0 || ((forall j :: 0 <= j < |sh[0]| ==> sh[0][j] <= k) && Accepts(sh[1..], |sh[0]|))
  }

  /** The number of outputs for an input of length k. */
  function OutLen(sh: seq<seq<nat>>, k: nat): nat {
    if |sh| == 0 then k else |sh[|sh| - 1]|
  }

  /** MLP.Call on the numbers: each layer's outputs feed the next; with no
      layers the input comes back unchanged. */
  function MlpOut(t: seq<seq<NeuronState>>, xs: seq<real>, th: real -> real): (ys: seq<real>)
    requires Accepts(Shape(t), |xs|)
    ensures |ys| == OutLen(Shape(t), |xs|)
    decreases |t|
  {
    if |t| == 0 then xs
    else
      ShapeTail(t);
      MlpOut(t[1..], LayerOut(t[0], xs, th), th)
  }

  /** The values of a layer's records in the order the source visits them:
      each neuron's weights, then its bias. */
  function FlattenLayer(ss: seq<NeuronState>): seq<real> {
    if |ss| == 0 then [] else ss[0].weights + [ss[0].bias] + FlattenLayer(ss[1..])
  }

  function Flatten(t: seq<seq<NeuronState>>): seq<real> {
    if |t| == 0 then [] else FlattenLayer(t[0]) + Flatten(t[1..])
  }

  /** The number of values a layer of the given shape holds. */
  function LayerSize(sh: seq<nat>): nat {
    if |sh| == 0 then 0 else sh[0] + 1 + LayerSize(sh[1..])
  }

  lemma {:induction false} FlattenLayerInjective(a: seq<NeuronState>, b: seq<NeuronState>)
    requires |a| == |b| && forall j :: 0 <= j < |a| ==> |a[j].weights| == |b[j].weights|
    requires FlattenLayer(a) == FlattenLayer(b)
    ensures a == b
  {
    if |a| > 0 {
      var n := |a[0].weights|;
      var fa, fb := FlattenLayer(a), FlattenLayer(b);
      assert fa[..n] == a[0].weights && fb[..n] == b[0].weights;
      assert fa[n] == a[0].bias && fb[n] == b[0].bias;
      assert fa[n + 1..] == FlattenLayer(a[1..]) && fb[n + 1..] == FlattenLayer(b[1..]);
      FlattenLayerInjective(a[1..], b[1..]);
      assert a == [a[0]] + a[1..] && b == [b[0]] + b[1..];
    }
  }

  lemma {:induction false} FlattenLayerSize(a: seq<NeuronState>)
    ensures |FlattenLayer(a)| == LayerSize(seq(|a|, j requires 0 <= j < |a| => |a[j].weights|))
  {
    if |a| > 0 {
      FlattenLayerSize(a[1..]);
      var sh := seq(|a|, j requires 0 <= j < |a| => |a[j].weights|);
      assert sh[1..] == seq(|a[1..]|, j requires 0 <= j < |a[1..]| => |a[1..][j].weights|);
    }
  }

  /** The first layer's weight counts, as FlattenLayerSize states them. */
  lemma ShapeHead(t: seq<seq<NeuronState>>)
    requires |t| > 0
    ensures Shape(t)[0] == seq(|t[0]|, j requires 0 <= j < |t[0]| => |t[0][j].weights|)
  {
  }

  /** Same shape and same flat list: the first layers agree, and so do the
      rest. */
  lemma FlattenHead(a: seq<seq<NeuronState>>, b: seq<seq<NeuronState>>)
    requires |a| > 0 && Shape(a) == Shape(b) && Flatten(a) == Flatten(b)
    ensures a[0] == b[0] && Shape(a[1..]) == Shape(b[1..]) && Flatten(a[1..]) == Flatten(b[1..])
  {
    assert |b| > 0 && |a[0]| == |b[0]|;
    ShapeHead(a);
    ShapeHead(b);
    FlattenLayerSize(a[0]);
    FlattenLayerSize(b[0]);
    var n := |FlattenLayer(a[0])|;
    assert Flatten(a)[..n] == FlattenLayer(a[0]) && Flatten(b)[..n] == FlattenLayer(b[0]);
    assert Flatten(a)[n..] == Flatten(a[1..]) && Flatten(b)[n..] == Flatten(b[1..]);
    assert forall j :: 0 <= j < |a[0]| ==> Shape(a)[0][j] == |a[0][j].weights| && Shape(b)[0][j] == |b[0][j].weights|;
    FlattenLayerInjective(a[0], b[0]);
    ShapeTail(a);
    ShapeTail(b);
  }

  /** Two tables of the same shape that flatten to the same values are equal:
      the flat list determines the table once the shape is known. */
  lemma {:induction false} FlattenInjective(a: seq<seq<NeuronState>>, b: seq<seq<NeuronState>>)
    requires Shape(a) == Shape(b) && Flatten(a) == Flatten(b)
    ensures a == b
  {
    if |a| > 0 {
      FlattenHead(a, b);
      FlattenInjective(a[1..], b[1..]);
      assert a == [a[0]] + a[1..] && b == [b[0]] + b[1..];
    }
  }
}
