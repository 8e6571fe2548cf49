/** The forward calls of Neuron, Layer and MLP (nn/engine.go:57-64, 84-90,
    120-125): each appends fresh nodes to the arena, and the data of its
    outputs is the table-level forward pass of module Table. */
module Forward {
  import opened Value
  import opened Table
  import opened Engine

  /** The inputs a call may read: arena indices, at least as many as the
      neuron has weights (the source indexes x[i] for every weight i and
      panics on a shorter input). */
  predicate Feeds(g: Graph, n: Neuron, x: seq<nat>) {
    NeuronIn(g, n) && IndicesIn(g, x) && |n.w| <= |x|
  }

  /** The nodes a call may leave referenced: those it reads. */
  predicate Untouched(g: Graph, g': Graph, keep: seq<nat>) {
    forall v :: 0 <= v < |g| && Unreferenced(g, v) && v !in keep ==> Unreferenced(g', v)
  }

  /** Every node from index lo on has gradient 0, as each constructor leaves
      the node it appends. */
  predicate ZeroGradsFrom(lo: nat, G: Graph) {
    forall k :: lo <= k < |G| ==> G[k].grad == 0.0
  }

  /** Nodes appended with gradient 0 on top of nodes with gradient 0. */
  lemma ZeroGradsJoin(lo: nat, h: Graph, G: Graph)
    requires lo <= |h| && Extends(h, G) && ZeroGradsFrom(lo, h) && ZeroGradsFrom(|h|, G)
    ensures ZeroGradsFrom(lo, G)
  {
  }

  /** The running sum Neuron.Call's loop holds before term i when its nodes
      start at index base: the bias, then the previous term's sum node. */
  function SumBefore(base: nat, n: Neuron, i: nat): nat {
    if i == 0 then n.b else base + 2 * i - 1
  }

  /** The two nodes of term i of Neuron.Call's loop, the terms starting at
      index base, each as Mul and Add make it, with gradient 0: node
      base + 2i is Mul(w[i], x[i]) holding w[i] * x[i], and node base + 2i + 1
      is Add(sum, that product) holding their sum. */
  predicate TermAt(base: nat, G: Graph, n: Neuron, x: seq<nat>, i: nat)
    requires i < |n.w| && i < |x| && base + 2 * i + 2 <= |G|
  {
    && n.w[i] < |G| && x[i] < |G| && SumBefore(base, n, i) < |G|
    && G[base + 2 * i] == Node(G[n.w[i]].data * G[x[i]].data, 0.0, MulOp(n.w[i], x[i]))
    && G[base + 2 * i + 1]
       == Node(G[SumBefore(base, n, i)].data + G[base + 2 * i].data, 0.0, AddOp(SumBefore(base, n, i), base + 2 * i))
  }

  /** The nodes Neuron.Call's loop appends from index base on in its first k
      terms: term i's two nodes for every i < k (`WiredIndex`). */
  predicate Wired(base: nat, G: Graph, n: Neuron, x: seq<nat>, k: nat)
    requires k <= |n.w| && k <= |x| && base + 2 * k <= |G|
    decreases k
  {
    k == 0 || (Wired(base, G, n, x, k - 1) && TermAt(base, G, n, x, k - 1))
  }

  /** Wired terms, one at a time. */
  lemma {:induction false} WiredIndex(base: nat, G: Graph, n: Neuron, x: seq<nat>, k: nat)
    requires k <= |n.w| && k <= |x| && base + 2 * k <= |G| && Wired(base, G, n, x, k)
    ensures forall i :: 0 <= i < k ==> TermAt(base, G, n, x, i)
    decreases k
  {
    if k > 0 {
      WiredIndex(base, G, n, x, k - 1);
    }
  }

  /** Node o of G is what Neuron.Call builds for n on x: the wired terms
      just below it, then a node with gradient 0 holding tanh of the last
      sum, or of the bias when there are no weights. */
  predicate NeuronAt(G: Graph, n: Neuron, x: seq<nat>, th: real -> real, o: nat) {
    && 2 * |n.w| <= o < |G| && |n.w| <= |x|
    && Wired(o - 2 * |n.w|, G, n, x, |n.w|)
    && var s := SumBefore(o - 2 * |n.w|, n, |n.w|);
       s < |G| && G[o] == Node(th(G[s].data), 0.0, TanhOp(s))
  }

  /** The nodes outs of G are what Layer.Call builds for ns on x: the first
      output is the first neuron's Call on x, and the rest are the rest's on
      the same x. */
  predicate LayerAt(G: Graph, ns: seq<Neuron>, x: seq<nat>, th: real -> real, outs: seq<nat>)
    decreases |ns|
  {
    && |outs| == |ns|
    && (|ns| > 0 ==> NeuronAt(G, ns[0], x, th, outs[0]) && LayerAt(G, ns[1..], x, th, outs[1..]))
  }

  /** Output j of a wired layer is neuron j's Call on the layer's input. */
  lemma {:induction false} LayerAtIndex(G: Graph, ns: seq<Neuron>, x: seq<nat>, th: real -> real, outs: seq<nat>)
    requires LayerAt(G, ns, x, th, outs)
    ensures |outs| == |ns| && forall j :: 0 <= j < |ns| ==> NeuronAt(G, ns[j], x, th, outs[j])
    decreases |ns|
  {
    if |ns| > 0 {
      LayerAtIndex(G, ns[1..], x, th, outs[1..]);
      forall j | 0 < j < |ns| ensures NeuronAt(G, ns[j], x, th, outs[j]) {
        assert ns[j] == ns[1..][j - 1] && outs[j] == outs[1..][j - 1];
      }
    }
  }

  /** The nodes outs of G are what MLP.Call builds for ls on x: there are
      output nodes of the first layer on x, and the rest of the network,
      fed those nodes, builds outs. */
  ghost predicate MlpWired(G: Graph, ls: seq<Layer>, x: seq<nat>, th: real -> real, outs: seq<nat>)
    decreases |ls|
  {
    if |ls| == 0 then outs == x
    else exists ys :: LayerAt(G, ls[0].neurons, x, th, ys) && MlpWired(G, ls[1..], ys, th, outs)
  }

  /** Appending nodes keeps a neuron's output wired. */
  lemma NeuronAtExtend(G: Graph, G': Graph, n: Neuron, x: seq<nat>, th: real -> real, o: nat)
    requires Extends(G, G') && NeuronAt(G, n, x, th, o)
    ensures NeuronAt(G', n, x, th, o)
  {
    WiredExtend(o - 2 * |n.w|, G, G', n, x, |n.w|);
  }

  /** Appending nodes keeps a layer's outputs wired. */
  lemma LayerAtExtend(G: Graph, G': Graph, ns: seq<Neuron>, x: seq<nat>, th: real -> real, outs: seq<nat>)
    requires Extends(G, G') && LayerAt(G, ns, x, th, outs)
    ensures LayerAt(G', ns, x, th, outs)
    decreases |ns|
  {
    if |ns| > 0 {
      NeuronAtExtend(G, G', ns[0], x, th, outs[0]);
      LayerAtExtend(G, G', ns[1..], x, th, outs[1..]);
    }
  }

  /** The running sum of Neuron.Call after its first k terms: the bias, then
      one Mul(w[i], x[i]) and one Add(sum, that product) per term. */
  function Accumulate(g: Graph, n: Neuron, x: seq<nat>, k: nat): (r: Alloc<nat>)
    requires WellFormed(g) && Feeds(g, n, x) && k <= |n.w|
    ensures |r.arena| == |g| + 2 * k && Extends(g, r.arena) && WellFormed(r.arena)
    ensures r.value < |r.arena|
    ensures r.value == (if k == 0 then n.b else |r.arena| - 1)
    ensures r.arena[r.value].data == Fold(g[n.b].data, Datas(g, n.w), Datas(g, x), k)
    ensures k > 0 ==> Unreferenced(r.arena, r.value)
    ensures Untouched(g, r.arena, NeuronParams(n) + x)
    ensures Wired(|g|, r.arena, n, x, k)
  {
    if k == 0 then Alloc(g, n.b) else AccumulateTerm(g, n, x, k, Accumulate(g, n, x, k - 1))
  }

  /** One pass of the loop in Neuron.Call, term k - 1: the product node
      Mul(w[k-1], x[k-1]), then the sum node Add(sum, product). */
  function AccumulateTerm(g: Graph, n: Neuron, x: seq<nat>, k: nat, prev: Alloc<nat>): (r: Alloc<nat>)
    requires WellFormed(g) && Feeds(g, n, x) && 0 < k <= |n.w|
    requires |prev.arena| == |g| + 2 * (k - 1) && Extends(g, prev.arena) && WellFormed(prev.arena)
    requires prev.value == (if k == 1 then n.b else |prev.arena| - 1)
    requires prev.arena[prev.value].data == Fold(g[n.b].data, Datas(g, n.w), Datas(g, x), k - 1)
    requires Untouched(g, prev.arena, NeuronParams(n) + x)
    requires Wired(|g|, prev.arena, n, x, k - 1)
    ensures |r.arena| == |g| + 2 * k && Extends(g, r.arena) && WellFormed(r.arena)
    ensures r.value == |r.arena| - 1
    ensures r.arena[r.value].data == Fold(g[n.b].data, Datas(g, n.w), Datas(g, x), k)
    ensures Unreferenced(r.arena, r.value)
    ensures Untouched(g, r.arena, NeuronParams(n) + x)
    ensures Wired(|g|, r.arena, n, x, k)
  {
    var h := prev.arena;
    var g1 := Mul(h, n.w[k - 1], x[k - 1]);
    var g2 := Add(g1, prev.value, |h|);
    WiredStep(g, h, g1, g2, n, x, k, prev.value);
    AccumulateStep(g, n, x, k, h, prev.value, g1, g2);
    Alloc(g2, |h| + 1)
  }

  /** Term k - 1 appends the product node and then the sum node over the
      previous sum. */
  lemma WiredStep(g: Graph, h: Graph, g1: Graph, g2: Graph, n: Neuron, x: seq<nat>, k: nat, sum: nat)
    requires 0 < k <= |n.w| && k <= |x| && |h| == |g| + 2 * (k - 1) && Wired(|g|, h, n, x, k - 1)
    requires n.w[k - 1] < |h| && x[k - 1] < |h| && sum < |h|
    requires sum == SumBefore(|g|, n, k - 1)
    requires g1 == Mul(h, n.w[k - 1], x[k - 1]) && g2 == Add(g1, sum, |h|)
    ensures Wired(|g|, g2, n, x, k)
  {
    ExtendsTrans(h, g1, g2);
    assert g2[|h|] == g1[|h|];
    WiredExtend(|g|, h, g2, n, x, k - 1);
    assert g2[n.w[k - 1]] == h[n.w[k - 1]] && g2[x[k - 1]] == h[x[k - 1]] && g2[sum] == h[sum];
    assert |g| + 2 * (k - 1) == |h| && SumBefore(|g|, n, k - 1) == sum;
    assert TermAt(|g|, g2, n, x, k - 1);
  }

  lemma AccumulateStep(g: Graph, n: Neuron, x: seq<nat>, k: nat, h: Graph, sum: nat, g1: Graph, g2: Graph)
    requires WellFormed(g) && Feeds(g, n, x) && 0 < k <= |n.w|
    requires |h| == |g| + 2 * (k - 1) && Extends(g, h) && WellFormed(h)
    requires sum == (if k == 1 then n.b else |h| - 1)
    requires h[sum].data == Fold(g[n.b].data, Datas(g, n.w), Datas(g, x), k - 1)
    requires Untouched(g, h, NeuronParams(n) + x)
    requires g1 == Mul(h, n.w[k - 1], x[k - 1]) && g2 == Add(g1, sum, |h|)
    ensures |g2| == |g| + 2 * k && Extends(g, g2) && WellFormed(g2)
    ensures g2[|h| + 1].data == Fold(g[n.b].data, Datas(g, n.w), Datas(g, x), k)
    ensures Unreferenced(g2, |h| + 1)
    ensures Untouched(g, g2, NeuronParams(n) + x)
  {
    assert Datas(g, n.w)[k - 1] == h[n.w[k - 1]].data;
    assert Datas(g, x)[k - 1] == h[x[k - 1]].data;
    ExtendsTrans(g, h, g1);
    ExtendsTrans(g, g1, g2);
    forall v | 0 <= v < |g| && Unreferenced(g, v) && v !in NeuronParams(n) + x
      ensures Unreferenced(g2, v)
    {
      assert v != n.w[k - 1] && v != x[k - 1] && v != sum;
    }
  }

  /** Neuron.Call: the fold, then a tanh node. It appends 2|w| + 1 nodes; the
      output holds tanh(b + sum of w[i] * x[i]) and nothing uses it yet. */
  function NeuronCall(g: Graph, n: Neuron, x: seq<nat>, th: real -> real): (r: Alloc<nat>)
    requires WellFormed(g) && Feeds(g, n, x)
    ensures |r.arena| == |g| + 2 * |n.w| + 1 && Extends(g, r.arena) && WellFormed(r.arena)
    ensures r.value == |r.arena| - 1
    ensures r.arena[r.value].op == TanhOp(if |n.w| == 0 then n.b else r.value - 1)
    ensures r.arena[r.value].grad == 0.0
    ensures r.arena[r.value].data == NeuronOut(NeuronTable(g, n), Datas(g, x), th)
    ensures Unreferenced(r.arena, r.value)
    ensures Untouched(g, r.arena, NeuronParams(n) + x)
    ensures Wired(|g|, r.arena, n, x, |n.w|)
    ensures NeuronAt(r.arena, n, x, th, r.value)
    ensures ZeroGradsFrom(|g|, r.arena)
  {
    var acc := Accumulate(g, n, x, |n.w|);
    var G := Tanh(acc.arena, acc.value, th);
    TanhStep(g, acc.arena, G, n, x, th, acc.value);
    Alloc(G, |acc.arena|)
  }

  /** The tanh node on top of the wired terms makes a neuron's output. */
  lemma TanhStep(g: Graph, h: Graph, G: Graph, n: Neuron, x: seq<nat>, th: real -> real, s: nat)
    requires |n.w| <= |x| && |h| == |g| + 2 * |n.w| && Wired(|g|, h, n, x, |n.w|)
    requires s == SumBefore(|g|, n, |n.w|) && s < |h|
    requires G == Tanh(h, s, th)
    ensures Wired(|g|, G, n, x, |n.w|) && NeuronAt(G, n, x, th, |h|)
    ensures ZeroGradsFrom(|g|, G)
  {
    WiredExtend(|g|, h, G, n, x, |n.w|);
    WiredIndex(|g|, G, n, x, |n.w|);
    forall j | |g| <= j < |h| ensures G[j].grad == 0.0 {
      var i := (j - |g|) / 2;
      assert j == |g| + 2 * i || j == |g| + 2 * i + 1;
      assert TermAt(|g|, G, n, x, i);
      assert G[|g| + 2 * i].grad == 0.0 && G[|g| + 2 * i + 1].grad == 0.0;
    }
  }

  /** Appending nodes keeps wired terms wired. */
  lemma {:induction false} WiredExtend(base: nat, G: Graph, G': Graph, n: Neuron, x: seq<nat>, k: nat)
    requires k <= |n.w| && k <= |x| && base + 2 * k <= |G|
    requires Extends(G, G') && Wired(base, G, n, x, k)
    ensures Wired(base, G', n, x, k)
    decreases k
  {
    if k > 0 {
      WiredExtend(base, G, G', n, x, k - 1);
      var i := k - 1;
      assert G'[base + 2 * i] == G[base + 2 * i] && G'[base + 2 * i + 1] == G[base + 2 * i + 1];
      assert G'[n.w[i]] == G[n.w[i]] && G'[x[i]] == G[x[i]];
      assert G'[SumBefore(base, n, i)] == G[SumBefore(base, n, i)];
    }
  }

  /** Outputs of a call: fresh nodes above the old arena, in increasing order,
      with gradient 0, none of them used by any node. */
  predicate FreshOutputs(g: Graph, g': Graph, outs: seq<nat>) {
    && (forall k :: 0 <= k < |outs| ==> |g| <= outs[k] < |g'|)
    && (forall k, l :: 0 <= k < l < |outs| ==> outs[k] < outs[l])
    && (forall k :: 0 <= k < |outs| ==> g'[outs[k]].grad == 0.0 && Unreferenced(g', outs[k]))
  }

  predicate LayerFeeds(g: Graph, ns: seq<Neuron>, x: seq<nat>) {
    forall j :: 0 <= j < |ns| ==> Feeds(g, ns[j], x)
  }

  lemma LayerFeedsExtend(g: Graph, g': Graph, ns: seq<Neuron>, x: seq<nat>)
    requires Extends(g, g') && LayerFeeds(g, ns, x)
    ensures LayerFeeds(g', ns, x)
  {
  }

  lemma UntouchedTrans(g: Graph, h: Graph, g': Graph, k1: seq<nat>, k2: seq<nat>, k: seq<nat>)
    requires |g| <= |h| && Untouched(g, h, k1) && Untouched(h, g', k2)
    requires forall v :: v < |g| && (v in k1 || v in k2) ==> v in k
    ensures Untouched(g, g', k)
  {
  }

  lemma LayerTableExtend(g: Graph, g': Graph, ns: seq<Neuron>)
    requires Extends(g, g') && LayerIn(g, ns)
    ensures LayerIn(g', ns) && LayerTable(g', ns) == LayerTable(g, ns)
  {
    forall j | 0 <= j < |ns|
      ensures NeuronIn(g', ns[j]) && NeuronTable(g', ns[j]) == NeuronTable(g, ns[j])
    {
      DatasExtend(g, g', ns[j].w);
    }
  }

  /** Layer.Call: one output per neuron, neuron j applied to the same x. */
  function LayerCall(g: Graph, ns: seq<Neuron>, x: seq<nat>, th: real -> real): (r: Alloc<seq<nat>>)
    requires WellFormed(g) && IndicesIn(g, x) && LayerFeeds(g, ns, x)
    ensures Extends(g, r.arena) && WellFormed(r.arena)
    ensures |r.value| == |ns| && FreshOutputs(g, r.arena, r.value)
    ensures IndicesIn(r.arena, r.value)
    ensures Datas(r.arena, r.value) == LayerOut(LayerTable(g, ns), Datas(g, x), th)
    ensures Untouched(g, r.arena, LayerParams(ns) + x)
    ensures ZeroGradsFrom(|g|, r.arena)
    decreases |ns|
  {
    if |ns| == 0 then Alloc(g, [])
    else
      var first := NeuronCall(g, ns[0], x, th);
      var h := first.arena;
      LayerFeedsExtend(g, h, ns[1..], x);
      var rest := LayerCall(h, ns[1..], x, th);
      ZeroGradsJoin(|g|, h, rest.arena);
      LayerCons(g, h, rest.arena, ns, x, first.value, rest.value);
      LayerOutCons(g, h, rest.arena, ns, x, th, first.value, rest.value);
      Alloc(rest.arena, [first.value] + rest.value)
  }

  /** Layer.Call's outputs are wired as the layer: the first is what
      Neuron.Call builds for the first neuron on x, and so on, each neuron
      reading the same input nodes x. */
  lemma {:induction false} LayerCallWired(g: Graph, ns: seq<Neuron>, x: seq<nat>, th: real -> real)
    requires WellFormed(g) && IndicesIn(g, x) && LayerFeeds(g, ns, x)
    ensures var r := LayerCall(g, ns, x, th); LayerAt(r.arena, ns, x, th, r.value)
    decreases |ns|
  {
    if |ns| > 0 {
      LayerCallUnfold(g, ns, x, th);
      var first := NeuronCall(g, ns[0], x, th);
      LayerCallWired(first.arena, ns[1..], x, th);
      var rest := LayerCall(first.arena, ns[1..], x, th);
      LayerAtCons(first.arena, rest.arena, ns, x, th, first.value, rest.value);
    }
  }

  /** One step of Layer.Call: the first neuron's Call, then the rest of the
      layer on the grown arena. */
  lemma LayerCallUnfold(g: Graph, ns: seq<Neuron>, x: seq<nat>, th: real -> real)
    requires WellFormed(g) && IndicesIn(g, x) && LayerFeeds(g, ns, x) && |ns| > 0
    ensures var first := NeuronCall(g, ns[0], x, th);
      && WellFormed(first.arena) && IndicesIn(first.arena, x) && LayerFeeds(first.arena, ns[1..], x)
      && var rest := LayerCall(first.arena, ns[1..], x, th);
      && LayerCall(g, ns, x, th) == Alloc(rest.arena, [first.value] + rest.value)
  {
    LayerFeedsExtend(g, NeuronCall(g, ns[0], x, th).arena, ns[1..], x);
  }

  /** The first neuron's output in front of the rest's outputs is wired as
      the whole layer. */
  lemma LayerAtCons(h: Graph, g': Graph, ns: seq<Neuron>, x: seq<nat>, th: real -> real, o: nat, os: seq<nat>)
    requires |ns| > 0 && Extends(h, g') && NeuronAt(h, ns[0], x, th, o)
    requires LayerAt(g', ns[1..], x, th, os)
    ensures LayerAt(g', ns, x, th, [o] + os)
  {
    NeuronAtExtend(h, g', ns[0], x, th, o);
    assert ([o] + os)[1..] == os;
  }

  lemma FreshCons(g: Graph, h: Graph, g': Graph, o: nat, os: seq<nat>)
    requires Extends(h, g') && |g| <= o < |h| && h[o].grad == 0.0 && Unreferenced(g', o)
    requires FreshOutputs(h, g', os)
    ensures FreshOutputs(g, g', [o] + os)
  {
  }

  /** The first neuron's output in front of the rest's outputs: fresh, and
      nothing else gets used. */
  lemma LayerCons(g: Graph, h: Graph, g': Graph, ns: seq<Neuron>, x: seq<nat>, o: nat, os: seq<nat>)
    requires |ns| > 0 && IndicesIn(g, x) && LayerFeeds(g, ns, x)
    requires Extends(g, h) && Extends(h, g') && |g| <= o < |h|
    requires h[o].grad == 0.0 && Unreferenced(h, o)
    requires Untouched(g, h, NeuronParams(ns[0]) + x)
    requires |os| == |ns| - 1 && FreshOutputs(h, g', os) && IndicesIn(g', os)
    requires Untouched(h, g', LayerParams(ns[1..]) + x)
    ensures FreshOutputs(g, g', [o] + os) && IndicesIn(g', [o] + os)
    ensures Untouched(g, g', LayerParams(ns) + x)
  {
    assert o !in LayerParams(ns[1..]) + x by {
      LayerParamsIn(g, ns[1..]);
    }
    assert Unreferenced(g', o);
    FreshCons(g, h, g', o, os);
    assert LayerParams(ns) == NeuronParams(ns[0]) + LayerParams(ns[1..]);
    UntouchedTrans(g, h, g', NeuronParams(ns[0]) + x, LayerParams(ns[1..]) + x, LayerParams(ns) + x);
  }

  /** The first neuron's output in front of the rest's outputs: the layer's
      outputs on the numbers. */
  lemma LayerOutCons(g: Graph, h: Graph, g': Graph, ns: seq<Neuron>, x: seq<nat>, th: real -> real,
                     o: nat, os: seq<nat>)
    requires |ns| > 0 && IndicesIn(g, x) && LayerFeeds(g, ns, x)
    requires Extends(g, h) && Extends(h, g') && o < |h|
    requires h[o].data == NeuronOut(NeuronTable(g, ns[0]), Datas(g, x), th)
    requires |os| == |ns| - 1 && IndicesIn(g', os)
    requires LayerIn(h, ns[1..]) && IndicesIn(h, x)
    requires Datas(g', os) == LayerOut(LayerTable(h, ns[1..]), Datas(h, x), th)
    ensures IndicesIn(g', [o] + os)
    ensures Datas(g', [o] + os) == LayerOut(LayerTable(g, ns), Datas(g, x), th)
  {
    LayerTableExtend(g, h, ns[1..]);
    DatasExtend(g, h, x);
    var outs := [o] + os;
    var lhs, rhs := Datas(g', outs), LayerOut(LayerTable(g, ns), Datas(g, x), th);
    forall k | 0 <= k < |outs| ensures lhs[k] == rhs[k] {
      if k > 0 {
        assert lhs[k] == Datas(g', os)[k - 1];
        assert LayerTable(g, ns)[k] == LayerTable(g, ns[1..])[k - 1];
      } else {
        assert lhs[0] == h[o].data;
      }
    }
  }

  /** An input the network accepts feeds its first layer. */
  lemma FirstLayerFeeds(g: Graph, ls: seq<Layer>, x: seq<nat>)
    requires MlpIn(g, ls) && IndicesIn(g, x) && |ls| > 0
    requires Accepts(Arities(ls), |x|)
    ensures LayerFeeds(g, ls[0].neurons, x)
  {
    var ns := ls[0].neurons;
    forall j | 0 <= j < |ns| ensures |ns[j].w| <= |x| {
      assert Arities(ls)[0][j] == |ns[j].w|;
    }
  }

  /** MLP.Call: each layer's outputs are the next layer's inputs; with no
      layers the input comes back as it is. */
  function MlpCall(g: Graph, ls: seq<Layer>, x: seq<nat>, th: real -> real): (r: Alloc<seq<nat>>)
    requires WellFormed(g) && MlpIn(g, ls) && IndicesIn(g, x)
    requires Accepts(Arities(ls), |x|)
    ensures Extends(g, r.arena) && WellFormed(r.arena) && IndicesIn(r.arena, r.value)
    ensures |r.value| == OutLen(Arities(ls), |x|)
    ensures Datas(r.arena, r.value) == MlpOut(MlpTable(g, ls), Datas(g, x), th)
    ensures |ls| == 0 ==> r == Alloc(g, x)
    ensures |ls| > 0 ==> FreshOutputs(g, r.arena, r.value)
    ensures Untouched(g, r.arena, MlpParams(ls) + x)
    ensures MlpWired(r.arena, ls, x, th, r.value)
    ensures ZeroGradsFrom(|g|, r.arena)
    decreases |ls|
  {
    if |ls| == 0 then Alloc(g, x)
    else
      FirstLayerFeeds(g, ls, x);
      var y := LayerCall(g, ls[0].neurons, x, th);
      MlpPrepare(g, y.arena, ls, x, y.value);
      var rest := MlpCall(y.arena, ls[1..], y.value, th);
      ZeroGradsJoin(|g|, y.arena, rest.arena);
      MlpCons(g, y.arena, rest.arena, ls, x, y.value, rest.value);
      MlpOutCons(g, y.arena, rest.arena, ls, x, th, y.value, rest.value);
      LayerCallWired(g, ls[0].neurons, x, th);
      LayerAtExtend(y.arena, rest.arena, ls[0].neurons, x, th, y.value);
      rest
  }

  /** The rest of the network accepts the first layer's outputs. */
  lemma MlpPrepare(g: Graph, h: Graph, ls: seq<Layer>, x: seq<nat>, ys: seq<nat>)
    requires |ls| > 0 && MlpIn(g, ls) && Accepts(Arities(ls), |x|)
    requires Extends(g, h) && IndicesIn(h, ys) && |ys| == |ls[0].neurons|
    ensures MlpIn(h, ls[1..]) && MlpTable(h, ls[1..]) == MlpTable(g, ls[1..])
    ensures Arities(ls[1..]) == Arities(ls)[1..]
    ensures Accepts(Arities(ls[1..]), |ys|)
  {
    assert Arities(ls[1..]) == Arities(ls)[1..];
    TableExtend(g, h, ls[1..]);
  }

  /** The rest's outputs are the network's: fresh, and nothing else gets used. */
  lemma MlpCons(g: Graph, h: Graph, g': Graph, ls: seq<Layer>, x: seq<nat>, ys: seq<nat>, zs: seq<nat>)
    requires |ls| > 0 && MlpIn(g, ls) && IndicesIn(g, x)
    requires Extends(g, h) && Extends(h, g')
    requires FreshOutputs(g, h, ys)
    requires Untouched(g, h, LayerParams(ls[0].neurons) + x)
    requires |ls| == 1 ==> g' == h && zs == ys
    requires |ls| > 1 ==> FreshOutputs(h, g', zs)
    requires Untouched(h, g', MlpParams(ls[1..]) + ys)
    ensures FreshOutputs(g, g', zs)
    ensures Untouched(g, g', MlpParams(ls) + x)
  {
    assert MlpParams(ls) == LayerParams(ls[0].neurons) + MlpParams(ls[1..]);
    forall v | 0 <= v < |g| && Unreferenced(g, v) && v !in MlpParams(ls) + x
      ensures Unreferenced(g', v)
    {
      assert v !in ys;
    }
  }

  /** The rest's outputs are the network's outputs on the numbers. */
  lemma MlpOutCons(g: Graph, h: Graph, g': Graph, ls: seq<Layer>, x: seq<nat>, th: real -> real,
                   ys: seq<nat>, zs: seq<nat>)
    requires |ls| > 0 && MlpIn(g, ls) && IndicesIn(g, x)
    requires Accepts(Arities(ls), |x|) && LayerFeeds(g, ls[0].neurons, x)
    requires IndicesIn(h, ys) && |ys| == |ls[0].neurons|
    requires Datas(h, ys) == LayerOut(LayerTable(g, ls[0].neurons), Datas(g, x), th)
    requires MlpIn(h, ls[1..]) && MlpTable(h, ls[1..]) == MlpTable(g, ls[1..])
    requires Arities(ls[1..]) == Arities(ls)[1..] && Accepts(Arities(ls[1..]), |ys|)
    requires IndicesIn(g', zs) && |zs| == OutLen(Arities(ls[1..]), |ys|)
    requires Datas(g', zs) == MlpOut(MlpTable(h, ls[1..]), Datas(h, ys), th)
    ensures |zs| == OutLen(Arities(ls), |x|)
    ensures Datas(g', zs) == MlpOut(MlpTable(g, ls), Datas(g, x), th)
  {
    var t := MlpTable(g, ls);
    assert t[1..] == MlpTable(g, ls[1..]);
    assert t[0] == LayerTable(g, ls[0].neurons);
  }
}
