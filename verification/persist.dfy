/** The in-memory half of MLP.Save and LoadMLP (nn/engine.go:135-171,
    188-215): extracting the (weights, bias) table of a network and writing a
    table back into a freshly built network of the recorded shape. */
module Persist {
  import opened Value
  import opened Topo
  import opened Table
  import opened Engine

  /** MLPState without its JSON tags. */
  datatype MlpState = MlpState(numInputs: nat, layerSizes: seq<nat>, layerStates: seq<seq<NeuronState>>)

  /** The input width Save records: the weight count of the first neuron of
      the first layer, or 0 when there is no such neuron. */
  function NumInputs(ls: seq<Layer>): nat {
    if |ls| > 0 && |ls[0].neurons| > 0 then |ls[0].neurons[0].w| else 0
  }

  /** Save's copying loops: the layer sizes and every neuron's weights and
      bias. The state lists the parameters' values in Parameters() order. */
  function Save(g: Graph, m: Mlp): (st: MlpState)
    requires MlpIn(g, m.layers)
    ensures |st.layerSizes| == |m.layers|
    ensures forall i :: 0 <= i < |m.layers| ==> st.layerSizes[i] == |m.layers[i].neurons|
    ensures Shape(st.layerStates) == Arities(m.layers)
    ensures IndicesIn(g, Parameters(m)) && Flatten(st.layerStates) == Datas(g, Parameters(m))
  {
    ParamsMatchTable(g, m.layers);
    MlpState(NumInputs(m.layers),
             seq(|m.layers|, i requires 0 <= i < |m.layers| => |m.layers[i].neurons|),
             MlpTable(g, m.layers))
  }

  // ---------------------------------------------------------------------
  // Writing values into the arena

  function SetData(g: Graph, p: nat, v: real): (g': Graph)
    requires p < |g|
  {
    g[p := g[p].(data := v)]
  }

  /** The assignments p.Data = v for the pairs of ps and vs, in order. */
  function WriteAll(g: Graph, ps: seq<nat>, vs: seq<real>): (g': Graph)
    requires IndicesIn(g, ps) && |vs| == |ps|
    ensures |g'| == |g|
    ensures forall j :: 0 <= j < |g| ==> g'[j].grad == g[j].grad && g'[j].op == g[j].op
    decreases |ps|
  {
    if |ps| == 0 then g else WriteAll(SetData(g, ps[0], vs[0]), ps[1..], vs[1..])
  }

  /** Nodes not written keep everything. */
  lemma {:induction false} WriteAllFrame(g: Graph, ps: seq<nat>, vs: seq<real>)
    requires IndicesIn(g, ps) && |vs| == |ps|
    ensures forall j :: 0 <= j < |g| && j !in ps ==> WriteAll(g, ps, vs)[j] == g[j]
    decreases |ps|
  {
    if |ps| > 0 {
      WriteAllFrame(SetData(g, ps[0], vs[0]), ps[1..], vs[1..]);
    }
  }

  /** With no index written twice, every written node reads back its value. */
  lemma {:induction false} WriteAllReads(g: Graph, ps: seq<nat>, vs: seq<real>)
    requires IndicesIn(g, ps) && |vs| == |ps| && Distinct(ps)
    ensures Datas(WriteAll(g, ps, vs), ps) == vs
    decreases |ps|
  {
    if |ps| > 0 {
      var g1 := SetData(g, ps[0], vs[0]);
      assert Distinct(ps[1..]);
      WriteAllReads(g1, ps[1..], vs[1..]);
      WriteAllFrame(g1, ps[1..], vs[1..]);
      var g' := WriteAll(g, ps, vs);
      forall k | 0 <= k < |ps| ensures g'[ps[k]].data == vs[k] {
        if k > 0 {
          assert ps[k] == ps[1..][k - 1];
        }
      }
    }
  }

  lemma {:induction false} WriteAllConcat(g: Graph, p1: seq<nat>, v1: seq<real>, p2: seq<nat>, v2: seq<real>)
    requires IndicesIn(g, p1) && IndicesIn(g, p2) && |v1| == |p1| && |v2| == |p2|
    ensures WriteAll(WriteAll(g, p1, v1), p2, v2) == WriteAll(g, p1 + p2, v1 + v2)
    decreases |p1|
  {
    if |p1| > 0 {
      var g1 := SetData(g, p1[0], v1[0]);
      WriteAllConcat(g1, p1[1..], v1[1..], p2, v2);
      assert (p1 + p2)[1..] == p1[1..] + p2;
      assert (v1 + v2)[1..] == v1[1..] + v2;
      assert WriteAll(g, p1, v1) == WriteAll(g1, p1[1..], v1[1..]);
      assert WriteAll(g, p1 + p2, v1 + v2) == WriteAll(g1, p1[1..] + p2, v1[1..] + v2);
    } else {
      assert p1 + p2 == p2 && v1 + v2 == v2;
    }
  }

  // ---------------------------------------------------------------------
  // Restoring

  /** A layer's records hold enough values for neurons of widths sh: at
      least one record per neuron and one weight per input. LoadMLP indexes
      the table with the network's own indices, so entries beyond the shape
      are never read and missing ones make it panic. */
  predicate LayerFits(ss: seq<NeuronState>, sh: seq<nat>) {
    |sh| <= |ss| && forall j :: 0 <= j < |sh| ==> sh[j] <= |ss[j].weights|
  }

  predicate Fits(t: seq<seq<NeuronState>>, sh: seq<seq<nat>>) {
    |sh| <= |t| && forall i :: 0 <= i < |sh| ==> LayerFits(t[i], sh[i])
  }

  /** The part of a layer's records that neurons of widths sh read. */
  function RestrictLayer(ss: seq<NeuronState>, sh: seq<nat>): (r: seq<NeuronState>)
    requires LayerFits(ss, sh)
    ensures |r| == |sh| && forall j :: 0 <= j < |sh| ==> |r[j].weights| == sh[j]
  {
    seq(|sh|, j requires 0 <= j < |sh| => NeuronState(ss[j].weights[..sh[j]], ss[j].bias))
  }

  /** The part of a table that a network of shape sh reads. */
  function Restrict(t: seq<seq<NeuronState>>, sh: seq<seq<nat>>): (r: seq<seq<NeuronState>>)
    requires Fits(t, sh)
    ensures Shape(r) == sh
  {
    var r := seq(|sh|, i requires 0 <= i < |sh| => RestrictLayer(t[i], sh[i]));
    assert forall i | 0 <= i < |sh| :: Shape(r)[i] == sh[i];
    r
  }

  /** A table restricted to its own shape is itself. */
  lemma RestrictSelf(t: seq<seq<NeuronState>>)
    ensures Fits(t, Shape(t)) && Restrict(t, Shape(t)) == t
  {
    var r := Restrict(t, Shape(t));
    forall i | 0 <= i < |t| ensures r[i] == t[i] {
      forall j | 0 <= j < |t[i]| ensures r[i][j] == t[i][j] {
        assert t[i][j].weights[..|t[i][j].weights|] == t[i][j].weights;
      }
    }
  }

  lemma {:induction false} LayerFlatLength(ns: seq<Neuron>, ss: seq<NeuronState>)
    requires |ss| == |ns| && forall j :: 0 <= j < |ns| ==> |ss[j].weights| == |ns[j].w|
    ensures |FlattenLayer(ss)| == |LayerParams(ns)|
  {
    if |ns| > 0 {
      LayerFlatLength(ns[1..], ss[1..]);
    }
  }

  lemma {:induction false} FlatLength(ls: seq<Layer>, t: seq<seq<NeuronState>>)
    requires Shape(t) == Arities(ls)
    ensures |Flatten(t)| == |MlpParams(ls)|
  {
    if |ls| > 0 {
      assert Shape(t)[0] == Widths(ls[0].neurons);
      LayerFlatLength(ls[0].neurons, t[0]);
      ShapeTail(t);
      FlatLength(ls[1..], t[1..]);
    }
  }

  /** One neuron of LoadMLP's loop: the weights in order, then the bias. */
  function LoadNeuron(g: Graph, n: Neuron, s: NeuronState): (g': Graph)
    requires NeuronIn(g, n) && |n.w| <= |s.weights|
    ensures IndicesIn(g, NeuronParams(n))
    ensures g' == WriteAll(g, NeuronParams(n), s.weights[..|n.w|] + [s.bias])
  {
    var g1 := WriteAll(g, n.w, s.weights[..|n.w|]);
    WriteAllConcat(g, n.w, s.weights[..|n.w|], [n.b], [s.bias]);
    SetData(g1, n.b, s.bias)
  }

  /** LoadMLP's loop over the neurons of one layer: the same writes as one
      pass over the layer's parameters with the records' values. */
  function LoadLayer(g: Graph, ns: seq<Neuron>, ss: seq<NeuronState>): (g': Graph)
    requires LayerIn(g, ns) && LayerFits(ss, Widths(ns))
    ensures IndicesIn(g, LayerParams(ns))
    ensures |FlattenLayer(RestrictLayer(ss, Widths(ns)))| == |LayerParams(ns)|
    ensures g' == WriteAll(g, LayerParams(ns), FlattenLayer(RestrictLayer(ss, Widths(ns))))
    decreases |ns|
  {
    LayerParamsIn(g, ns);
    LayerFlatLength(ns, RestrictLayer(ss, Widths(ns)));
    if |ns| == 0 then g
    else
      var g1 := LoadNeuron(g, ns[0], ss[0]);
      var g' := LoadLayer(g1, ns[1..], ss[1..]);
      LoadLayerCons(ns, ss);
      assert LayerParams(ns) == NeuronParams(ns[0]) + LayerParams(ns[1..]);
      WriteAllConcat(g, NeuronParams(ns[0]), ss[0].weights[..|ns[0].w|] + [ss[0].bias],
                     LayerParams(ns[1..]), FlattenLayer(RestrictLayer(ss[1..], Widths(ns[1..]))));
      g'
  }

  lemma LoadLayerCons(ns: seq<Neuron>, ss: seq<NeuronState>)
    requires |ns| > 0 && LayerFits(ss, Widths(ns))
    ensures LayerFits(ss[1..], Widths(ns[1..]))
    ensures FlattenLayer(RestrictLayer(ss, Widths(ns)))
         == ss[0].weights[..|ns[0].w|] + [ss[0].bias] + FlattenLayer(RestrictLayer(ss[1..], Widths(ns[1..])))
  {
    var a := RestrictLayer(ss, Widths(ns));
    assert a[1..] == RestrictLayer(ss[1..], Widths(ns[1..]));
  }

  /** LoadMLP's loop over the layers: the same writes as one pass over
      Parameters() with the table's values. */
  function LoadLayers(g: Graph, ls: seq<Layer>, t: seq<seq<NeuronState>>): (g': Graph)
    requires MlpIn(g, ls) && Fits(t, Arities(ls))
    ensures IndicesIn(g, MlpParams(ls))
    ensures |Flatten(Restrict(t, Arities(ls)))| == |MlpParams(ls)|
    ensures g' == WriteAll(g, MlpParams(ls), Flatten(Restrict(t, Arities(ls))))
    decreases |ls|
  {
    MlpParamsIn(g, ls);
    FlatLength(ls, Restrict(t, Arities(ls)));
    if |ls| == 0 then g
    else
      var g1 := LoadLayer(g, ls[0].neurons, t[0]);
      LoadLayersFit(ls, t);
      LoadLayersCons(ls, t);
      assert MlpParams(ls) == LayerParams(ls[0].neurons) + MlpParams(ls[1..]);
      var g' := LoadLayers(g1, ls[1..], t[1..]);
      WriteAllConcat(g, LayerParams(ls[0].neurons), FlattenLayer(RestrictLayer(t[0], Widths(ls[0].neurons))),
                     MlpParams(ls[1..]), Flatten(Restrict(t[1..], Arities(ls[1..]))));
      g'
  }

  lemma LoadLayersFit(ls: seq<Layer>, t: seq<seq<NeuronState>>)
    requires |ls| > 0 && Fits(t, Arities(ls))
    ensures LayerFits(t[0], Widths(ls[0].neurons))
    ensures Fits(t[1..], Arities(ls[1..]))
  {
    assert Arities(ls[1..]) == Arities(ls)[1..];
  }

  lemma LoadLayersCons(ls: seq<Layer>, t: seq<seq<NeuronState>>)
    requires |ls| > 0 && Fits(t, Arities(ls))
    requires LayerFits(t[0], Widths(ls[0].neurons)) && Fits(t[1..], Arities(ls[1..]))
    ensures Flatten(Restrict(t, Arities(ls)))
         == FlattenLayer(RestrictLayer(t[0], Widths(ls[0].neurons))) + Flatten(Restrict(t[1..], Arities(ls[1..])))
  {
    var sh := Arities(ls);
    assert Arities(ls[1..]) == sh[1..];
    var r := Restrict(t, sh);
    assert r[1..] == Restrict(t[1..], sh[1..]);
  }

  /** LoadMLP without the file: build NewMLP(numInputs, layerSizes), then
      copy the recorded values in. The network comes back with the recorded
      shape and reads back exactly the part of the table its shape covers;
      its parameters are exactly the new nodes, all leaves with gradient 0;
      nothing that existed before the call changes. */
  function Load(g: Graph, st: MlpState, u: seq<real>): (r: Alloc<Mlp>)
    requires WellFormed(g)
    requires |u| == ParamCount(st.numInputs, st.layerSizes) && Draws(u)
    requires Fits(st.layerStates, Grid(st.numInputs, st.layerSizes))
    ensures WellFormed(r.arena) && |r.arena| == |g| + |u|
    ensures forall j :: 0 <= j < |g| ==> r.arena[j] == g[j]
    ensures Arities(r.value.layers) == Grid(st.numInputs, st.layerSizes)
    ensures MlpIn(r.arena, r.value.layers)
    ensures MlpTable(r.arena, r.value.layers) == Restrict(st.layerStates, Grid(st.numInputs, st.layerSizes))
    ensures Parameters(r.value) == Range(|g|, |u|)
    ensures forall k :: |g| <= k < |r.arena| ==> r.arena[k].op == NoOp && r.arena[k].grad == 0.0
  {
    var m := NewMLP(g, st.numInputs, st.layerSizes, u);
    var sh := Grid(st.numInputs, st.layerSizes);
    var h := LoadLayers(m.arena, m.value.layers, st.layerStates);
    WriteAllFrame(m.arena, Parameters(m.value), Flatten(Restrict(st.layerStates, sh)));
    LoadReadsBack(m.arena, h, m.value.layers, st.layerStates, |g|);
    FreshStaysLeaves(g, m.arena, h, u);
    Alloc(h, m.value)
  }

  /** Writing data into fresh leaves leaves them leaves with gradient 0. */
  lemma FreshStaysLeaves(g: Graph, m: Graph, h: Graph, u: seq<real>)
    requires FreshLeaves(g, m, u) && |h| == |m|
    requires forall j :: 0 <= j < |m| ==> h[j].grad == m[j].grad && h[j].op == m[j].op
    ensures forall k :: |g| <= k < |h| ==> h[k].op == NoOp && h[k].grad == 0.0
  {
    forall k | |g| <= k < |h| ensures h[k].op == NoOp && h[k].grad == 0.0 {
      assert m[|g| + (k - |g|)] == Node(u[k - |g|] * 2.0 - 1.0, 0.0, NoOp);
    }
  }

  /** After the writes, the network's table is the restricted table. */
  lemma LoadReadsBack(g: Graph, h: Graph, ls: seq<Layer>, t: seq<seq<NeuronState>>, lo: nat)
    requires MlpIn(g, ls) && Fits(t, Arities(ls)) && lo <= |g|
    requires MlpParams(ls) == Range(lo, |MlpParams(ls)|)
    requires IndicesIn(g, MlpParams(ls)) && |Flatten(Restrict(t, Arities(ls)))| == |MlpParams(ls)|
    requires h == WriteAll(g, MlpParams(ls), Flatten(Restrict(t, Arities(ls))))
    ensures MlpIn(h, ls)
    ensures MlpTable(h, ls) == Restrict(t, Arities(ls))
  {
    MlpParamsIn(g, ls);
    var ps := MlpParams(ls);
    assert Distinct(ps);
    WriteAllReads(g, ps, Flatten(Restrict(t, Arities(ls))));
    assert MlpIn(h, ls) by {
      forall i, j | 0 <= i < |ls| && 0 <= j < |ls[i].neurons| ensures NeuronIn(h, ls[i].neurons[j]) {
        assert LayerIn(g, ls[i].neurons);
      }
    }
    ParamsMatchTable(h, ls);
    FlattenInjective(MlpTable(h, ls), Restrict(t, Arities(ls)));
  }

  /** Two parameterisations of NewMLP that agree on what the network looks
      like: Save records the first neuron's input width, which differs from
      the one NewMLP was given only when the first layer is empty. */
  lemma GridNumInputs(ls: seq<Layer>, n: nat, sizes: seq<nat>)
    requires Arities(ls) == Grid(n, sizes)
    ensures Grid(NumInputs(ls), sizes) == Grid(n, sizes)
    ensures ParamCount(NumInputs(ls), sizes) == ParamCount(n, sizes)
  {
    if |sizes| > 0 && sizes[0] > 0 {
      assert Arities(ls)[0][0] == |ls[0].neurons[0].w|;
    }
  }

  /** Two networks of the same shape whose tables agree save to the same
      state and list the same parameter values. */
  lemma SameTableSameSave(g: Graph, m: Mlp, h: Graph, m': Mlp)
    requires MlpIn(g, m.layers) && MlpIn(h, m'.layers)
    requires Arities(m'.layers) == Arities(m.layers)
    requires MlpTable(h, m'.layers) == MlpTable(g, m.layers)
    ensures Save(h, m') == Save(g, m)
    ensures Datas(h, Parameters(m')) == Datas(g, Parameters(m))
  {
    ParamsMatchTable(h, m'.layers);
    ParamsMatchTable(g, m.layers);
    var ls, ls' := m.layers, m'.layers;
    assert NumInputs(ls') == NumInputs(ls) by {
      if |ls| > 0 && |ls[0].neurons| > 0 {
        assert Arities(ls')[0][0] == |ls'[0].neurons[0].w|;
        assert Arities(ls)[0][0] == |ls[0].neurons[0].w|;
      }
    }
    assert forall i :: 0 <= i < |ls| ==> |ls'[i].neurons| == |Arities(ls')[i]| == |ls[i].neurons|;
  }

  /** The restore round trip: for a network built by NewMLP, restoring its
      saved state yields a network that saves to the same state and whose
      parameters hold the original values, in Parameters() order. */
  lemma SaveLoadRoundTrip(g: Graph, m: Mlp, n: nat, sizes: seq<nat>, g0: Graph, u: seq<real>)
    requires WellFormed(g0) && MlpIn(g, m.layers) && Arities(m.layers) == Grid(n, sizes)
    requires |u| == ParamCount(n, sizes) && Draws(u)
    ensures var st := Save(g, m);
      && |u| == ParamCount(st.numInputs, st.layerSizes)
      && Fits(st.layerStates, Grid(st.numInputs, st.layerSizes))
      && var r := Load(g0, st, u);
         && Save(r.arena, r.value) == st
         && Datas(r.arena, Parameters(r.value)) == Datas(g, Parameters(m))
  {
    var st := Save(g, m);
    GridNumInputs(m.layers, n, sizes);
    assert st.layerSizes == sizes;
    RestrictSelf(st.layerStates);
    var r := Load(g0, st, u);
    SameTableSameSave(g, m, r.arena, r.value);
  }
}
