/** Neuron, Layer and MLP built on the node arena (nn/engine.go:10-133):
    construction with random initial weights, the forward calls, and the
    parameter lists. A network holds arena indices of its weight and bias
    leaves. */
module Engine {
  import opened Value
  import opened Table

  datatype Neuron = Neuron(w: seq<nat>, b: nat)
  datatype Layer = Layer(neurons: seq<Neuron>)
  datatype Mlp = Mlp(layers: seq<Layer>)

  // ---------------------------------------------------------------------
  // Parameters

  /** Neuron.Parameters: the weights, then the bias. */
  function NeuronParams(n: Neuron): seq<nat> {
    n.w + [n.b]
  }

  /** Layer.Parameters: each neuron's parameters in neuron order. */
  function LayerParams(ns: seq<Neuron>): seq<nat> {
    if |ns| == 0 then [] else NeuronParams(ns[0]) + LayerParams(ns[1..])
  }

  /** MLP.Parameters: each layer's parameters in layer order. */
  function MlpParams(ls: seq<Layer>): seq<nat> {
    if |ls| == 0 then [] else LayerParams(ls[0].neurons) + MlpParams(ls[1..])
  }

  function Parameters(m: Mlp): seq<nat> {
    MlpParams(m.layers)
  }

  predicate NeuronIn(g: Graph, n: Neuron) {
    IndicesIn(g, n.w) && n.b < |g|
  }

  predicate LayerIn(g: Graph, ns: seq<Neuron>) {
    forall j :: 0 <= j < |ns| ==> NeuronIn(g, ns[j])
  }

  predicate MlpIn(g: Graph, ls: seq<Layer>) {
    forall i :: 0 <= i < |ls| ==> LayerIn(g, ls[i].neurons)
  }

  lemma {:induction false} LayerParamsIn(g: Graph, ns: seq<Neuron>)
    requires LayerIn(g, ns)
    ensures IndicesIn(g, LayerParams(ns))
    ensures forall p :: p in LayerParams(ns) ==> p < |g|
  {
    if |ns| > 0 {
      LayerParamsIn(g, ns[1..]);
    }
  }

  lemma {:induction false} MlpParamsIn(g: Graph, ls: seq<Layer>)
    requires MlpIn(g, ls)
    ensures IndicesIn(g, MlpParams(ls))
    ensures forall p :: p in MlpParams(ls) ==> p < |g|
  {
    if |ls| > 0 {
      LayerParamsIn(g, ls[0].neurons);
      MlpParamsIn(g, ls[1..]);
    }
  }

  // ---------------------------------------------------------------------
  // The network's numbers

  /** The number of weights of every neuron, layer by layer. */
  function Arities(ls: seq<Layer>): (sh: seq<seq<nat>>)
    ensures |sh| == |ls|
    ensures forall i :: 0 <= i < |ls| ==> sh[i] == Widths(ls[i].neurons)
  {
    seq(|ls|, i requires 0 <= i < |ls| => Widths(ls[i].neurons))
  }

  /** The number of weights of every neuron of a layer. */
  function Widths(ns: seq<Neuron>): (ws: seq<nat>)
    ensures |ws| == |ns| && forall j :: 0 <= j < |ns| ==> ws[j] == |ns[j].w|
  {
    seq(|ns|, j requires 0 <= j < |ns| => |ns[j].w|)
  }

  function NeuronTable(g: Graph, n: Neuron): (s: NeuronState)
    requires NeuronIn(g, n)
    ensures |s.weights| == |n.w|
  {
    NeuronState(Datas(g, n.w), g[n.b].data)
  }

  function LayerTable(g: Graph, ns: seq<Neuron>): (ss: seq<NeuronState>)
    requires LayerIn(g, ns)
    ensures |ss| == |ns|
    ensures forall j :: 0 <= j < |ns| ==> |ss[j].weights| == |ns[j].w|
  {
    seq(|ns|, j requires 0 <= j < |ns| => NeuronTable(g, ns[j]))
  }

  /** The (weights, bias) records of every neuron, as the save routine
      extracts them; the table has the network's shape. */
  function MlpTable(g: Graph, ls: seq<Layer>): (t: seq<seq<NeuronState>>)
    requires MlpIn(g, ls)
    ensures Shape(t) == Arities(ls)
  {
    var t := seq(|ls|, i requires 0 <= i < |ls| => LayerTable(g, ls[i].neurons));
    assert forall i | 0 <= i < |ls| :: Shape(t)[i] == Arities(ls)[i];
    t
  }

  lemma TableExtend(g: Graph, g': Graph, ls: seq<Layer>)
    requires Extends(g, g') && MlpIn(g, ls)
    ensures MlpIn(g', ls) && MlpTable(g', ls) == MlpTable(g, ls)
  {
    forall i | 0 <= i < |ls|
      ensures LayerIn(g', ls[i].neurons)
      ensures LayerTable(g', ls[i].neurons) == LayerTable(g, ls[i].neurons)
    {
      var ns := ls[i].neurons;
      forall j | 0 <= j < |ns|
        ensures NeuronIn(g', ns[j]) && NeuronTable(g', ns[j]) == NeuronTable(g, ns[j])
      {
        DatasExtend(g, g', ns[j].w);
      }
    }
  }

  lemma LayerTableCons(g: Graph, ns: seq<Neuron>)
    requires LayerIn(g, ns) && |ns| > 0
    ensures LayerIn(g, ns[1..]) && NeuronIn(g, ns[0])
    ensures FlattenLayer(LayerTable(g, ns)) == Datas(g, NeuronParams(ns[0])) + FlattenLayer(LayerTable(g, ns[1..]))
  {
    assert LayerTable(g, ns)[1..] == LayerTable(g, ns[1..]);
  }

  lemma {:induction false} LayerParamsMatchTable(g: Graph, ns: seq<Neuron>)
    requires LayerIn(g, ns)
    ensures IndicesIn(g, LayerParams(ns))
    ensures Datas(g, LayerParams(ns)) == FlattenLayer(LayerTable(g, ns))
  {
    LayerParamsIn(g, ns);
    if |ns| > 0 {
      LayerTableCons(g, ns);
      LayerParamsMatchTable(g, ns[1..]);
      DatasConcat(g, NeuronParams(ns[0]), LayerParams(ns[1..]));
    }
  }

  lemma MlpTableCons(g: Graph, ls: seq<Layer>)
    requires MlpIn(g, ls) && |ls| > 0
    ensures MlpIn(g, ls[1..]) && LayerIn(g, ls[0].neurons)
    ensures Flatten(MlpTable(g, ls)) == FlattenLayer(LayerTable(g, ls[0].neurons)) + Flatten(MlpTable(g, ls[1..]))
  {
    assert MlpTable(g, ls)[1..] == MlpTable(g, ls[1..]);
  }

  /** The saved table, read in the order the source writes it, lists the
      parameters' values in Parameters() order. */
  lemma {:induction false} ParamsMatchTable(g: Graph, ls: seq<Layer>)
    requires MlpIn(g, ls)
    ensures IndicesIn(g, MlpParams(ls))
    ensures Datas(g, MlpParams(ls)) == Flatten(MlpTable(g, ls))
  {
    MlpParamsIn(g, ls);
    if |ls| > 0 {
      MlpTableCons(g, ls);
      LayerParamsMatchTable(g, ls[0].neurons);
      ParamsMatchTable(g, ls[1..]);
      DatasConcat(g, LayerParams(ls[0].neurons), MlpParams(ls[1..]));
    }
  }

  // ---------------------------------------------------------------------
  // Construction

  /** Draws of rand.Float64(): each in [0, 1). */
  predicate Draws(u: seq<real>) {
    forall k :: 0 <= k < |u| ==> 0.0 <= u[k] < 1.0
  }

  lemma DrawsSplit(u: seq<real>, c: nat)
    requires Draws(u) && c <= |u|
    ensures Draws(u[..c]) && Draws(u[c..]) && |u[..c]| == c && |u[c..]| == |u| - c
  {
  }

  function Range(lo: nat, n: nat): (r: seq<nat>)
    ensures |r| == n && forall k :: 0 <= k < n ==> r[k] == lo + k
  {
    seq(n, k requires 0 <= k < n => lo + k)
  }

  lemma RangeSplit(lo: nat, a: nat, b: nat)
    ensures Range(lo, a) + Range(lo + a, b) == Range(lo, a + b)
  {
  }

  /** The nodes g' adds to g are leaves with gradient 0 holding
      rand.Float64()*2 - 1 for the draws u, in order. */
  predicate FreshLeaves(g: Graph, g': Graph, u: seq<real>) {
    |g'| == |g| + |u| && forall k :: 0 <= k < |u| ==> g'[|g| + k] == Node(u[k] * 2.0 - 1.0, 0.0, NoOp)
  }

  lemma FreshLeavesJoin(g1: Graph, g2: Graph, g3: Graph, u: seq<real>, v: seq<real>)
    requires FreshLeaves(g1, g2, u) && FreshLeaves(g2, g3, v) && Extends(g2, g3)
    ensures FreshLeaves(g1, g3, u + v)
  {
    forall k | 0 <= k < |u + v|
      ensures g3[|g1| + k] == Node((u + v)[k] * 2.0 - 1.0, 0.0, NoOp)
    {
      if k >= |u| {
        assert g3[|g1| + k] == g3[|g2| + (k - |u|)];
      }
    }
  }

  /** NewNeuron(n): n weight leaves, then one bias leaf, each fresh with data
      in [-1, 1). */
  function NewNeuron(g: Graph, n: nat, u: seq<real>): (r: Alloc<Neuron>)
    requires |u| == n + 1 && Draws(u)
    ensures Extends(g, r.arena) && FreshLeaves(g, r.arena, u)
    ensures WellFormed(g) ==> WellFormed(r.arena)
    ensures |r.value.w| == n && NeuronParams(r.value) == Range(|g|, n + 1)
    ensures forall p :: p in NeuronParams(r.value) ==> |g| <= p < |r.arena| && -1.0 <= r.arena[p].data < 1.0
  {
    var leaves := seq(n + 1, k requires 0 <= k < n + 1 => Node(u[k] * 2.0 - 1.0, 0.0, NoOp));
    var r := Alloc(g + leaves, Neuron(Range(|g|, n), |g| + n));
    assert NeuronParams(r.value) == Range(|g|, n + 1);
    r
  }

  /** The number of parameters NewLayer(nin, nout) creates: nin + 1 per
      neuron. */
  function LayerCount(nin: nat, nout: nat): nat {
    if nout == 0 then 0 else nin + 1 + LayerCount(nin, nout - 1)
  }

  lemma {:induction false} LayerCountProduct(nin: nat, nout: nat)
    ensures LayerCount(nin, nout) == nout * (nin + 1)
  {
    if nout > 0 {
      LayerCountProduct(nin, nout - 1);
    }
  }

  /** NewLayer(nin, nout): nout neurons of nin inputs each, built in order. */
  function NewLayer(g: Graph, nin: nat, nout: nat, u: seq<real>): (r: Alloc<Layer>)
    requires |u| == LayerCount(nin, nout) && Draws(u)
    ensures Extends(g, r.arena) && FreshLeaves(g, r.arena, u)
    ensures WellFormed(g) ==> WellFormed(r.arena)
    ensures |r.value.neurons| == nout
    ensures forall j :: 0 <= j < nout ==> |r.value.neurons[j].w| == nin
    ensures LayerParams(r.value.neurons) == Range(|g|, |u|)
    ensures LayerIn(r.arena, r.value.neurons)
    decreases nout
  {
    if nout == 0 then Alloc(g, Layer([]))
    else
      var c := nin + 1;
      DrawsSplit(u, c);
      var first := NewNeuron(g, nin, u[..c]);
      var rest := NewLayer(first.arena, nin, nout - 1, u[c..]);
      NewLayerCons(g, first.arena, rest.arena, nin, u, c, first.value, rest.value.neurons);
      Alloc(rest.arena, Layer([first.value] + rest.value.neurons))
  }

  lemma NewLayerCons(g: Graph, h: Graph, g': Graph, nin: nat, u: seq<real>, c: nat, n: Neuron, ns: seq<Neuron>)
    requires c == nin + 1 && c <= |u|
    requires Extends(g, h) && FreshLeaves(g, h, u[..c])
    requires |n.w| == nin && NeuronParams(n) == Range(|g|, c)
    requires forall p :: p in NeuronParams(n) ==> |g| <= p < |h|
    requires Extends(h, g') && FreshLeaves(h, g', u[c..])
    requires forall j :: 0 <= j < |ns| ==> |ns[j].w| == nin
    requires LayerParams(ns) == Range(|h|, |u| - c)
    requires LayerIn(g', ns)
    ensures Extends(g, g') && FreshLeaves(g, g', u)
    ensures forall j :: 0 <= j < |ns| + 1 ==> |([n] + ns)[j].w| == nin
    ensures LayerParams([n] + ns) == Range(|g|, |u|)
    ensures LayerIn(g', [n] + ns)
  {
    assert u == u[..c] + u[c..];
    FreshLeavesJoin(g, h, g', u[..c], u[c..]);
    RangeSplit(|g|, c, |u| - c);
    var all := [n] + ns;
    assert all[1..] == ns;
    assert NeuronIn(g', n) by {
      forall k | 0 <= k < |n.w| ensures n.w[k] < |g'| {
        assert NeuronParams(n)[k] == n.w[k];
      }
      assert NeuronParams(n)[|n.w|] == n.b;
    }
  }

  /** The number of parameters NewMLP(n, sizes) creates: layer i contributes
      sizes[i] neurons of in_i + 1 parameters, where in_0 = n and
      in_i = sizes[i-1]. */
  function ParamCount(n: nat, sizes: seq<nat>): nat
    decreases |sizes|
  {
    if |sizes| == 0 then 0 else LayerCount(n, sizes[0]) + ParamCount(sizes[0], sizes[1..])
  }

  /** The shape NewMLP(n, sizes) gives: layer i has sizes[i] neurons with
      n inputs for the first layer and sizes[i-1] inputs after that. */
  function Grid(n: nat, sizes: seq<nat>): (sh: seq<seq<nat>>)
    ensures |sh| == |sizes|
    ensures forall i :: 0 <= i < |sizes| ==> |sh[i]| == sizes[i]
    ensures forall i, j :: 0 <= i < |sizes| && 0 <= j < sizes[i] ==> sh[i][j] == (if i == 0 then n else sizes[i - 1])
    decreases |sizes|
  {
    if |sizes| == 0 then []
    else [seq(sizes[0], _ => n)] + Grid(sizes[0], sizes[1..])
  }

  lemma LayerInExtend(g: Graph, g': Graph, ns: seq<Neuron>)
    requires Extends(g, g') && LayerIn(g, ns)
    ensures LayerIn(g', ns)
  {
  }

  lemma GridCons(n: nat, sizes: seq<nat>, l: Layer, ls: seq<Layer>)
    requires |sizes| > 0 && |l.neurons| == sizes[0]
    requires forall j :: 0 <= j < sizes[0] ==> |l.neurons[j].w| == n
    requires Arities(ls) == Grid(sizes[0], sizes[1..])
    ensures Arities([l] + ls) == Grid(n, sizes)
  {
    var a, b := Arities([l] + ls), Grid(n, sizes);
    assert a[0] == b[0];
    forall i | 1 <= i < |a| ensures a[i] == b[i] {
      assert a[i] == Arities(ls)[i - 1];
    }
  }

  /** The first layer and the rest built after it make up NewMLP's result. */
  lemma MlpCons(g: Graph, n: nat, sizes: seq<nat>, u: seq<real>, first: Alloc<Layer>, rest: Alloc<Mlp>)
    requires |sizes| > 0 && |u| == ParamCount(n, sizes) && |u| >= LayerCount(n, sizes[0])
    requires var c := LayerCount(n, sizes[0]);
      && Extends(g, first.arena) && FreshLeaves(g, first.arena, u[..c])
      && |first.value.neurons| == sizes[0]
      && (forall j :: 0 <= j < sizes[0] ==> |first.value.neurons[j].w| == n)
      && LayerParams(first.value.neurons) == Range(|g|, c)
      && LayerIn(first.arena, first.value.neurons)
      && Extends(first.arena, rest.arena) && FreshLeaves(first.arena, rest.arena, u[c..])
      && Arities(rest.value.layers) == Grid(sizes[0], sizes[1..])
      && Parameters(rest.value) == Range(|first.arena|, |u| - c)
      && MlpIn(rest.arena, rest.value.layers)
    ensures var r := Alloc(rest.arena, Mlp([first.value] + rest.value.layers));
      && Extends(g, r.arena) && FreshLeaves(g, r.arena, u)
      && Arities(r.value.layers) == Grid(n, sizes)
      && Parameters(r.value) == Range(|g|, |u|)
      && MlpIn(r.arena, r.value.layers)
  {
    var c := LayerCount(n, sizes[0]);
    assert u == u[..c] + u[c..];
    FreshLeavesJoin(g, first.arena, rest.arena, u[..c], u[c..]);
    RangeSplit(|g|, c, |u| - c);
    var ls := [first.value] + rest.value.layers;
    GridCons(n, sizes, first.value, rest.value.layers);
    LayerInExtend(first.arena, rest.arena, first.value.neurons);
    assert ls[1..] == rest.value.layers;
  }

  /** NewMLP(n, sizes): one layer per size, each fed by the previous one;
      its parameters are exactly the fresh leaves, in creation order. */
  function NewMLP(g: Graph, n: nat, sizes: seq<nat>, u: seq<real>): (r: Alloc<Mlp>)
    requires |u| == ParamCount(n, sizes) && Draws(u)
    ensures Extends(g, r.arena) && FreshLeaves(g, r.arena, u)
    ensures WellFormed(g) ==> WellFormed(r.arena)
    ensures Arities(r.value.layers) == Grid(n, sizes)
    ensures Parameters(r.value) == Range(|g|, ParamCount(n, sizes))
    ensures MlpIn(r.arena, r.value.layers)
    decreases |sizes|
  {
    if |sizes| == 0 then Alloc(g, Mlp([]))
    else
      var c := LayerCount(n, sizes[0]);
      DrawsSplit(u, c);
      var first := NewLayer(g, n, sizes[0], u[..c]);
      var rest := NewMLP(first.arena, sizes[0], sizes[1..], u[c..]);
      MlpCons(g, n, sizes, u, first, rest);
      Alloc(rest.arena, Mlp([first.value] + rest.value.layers))
  }
}
