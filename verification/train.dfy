/** One training step of `Run` (main.go:319-349): a forward pass per sample,
    the squared-error loss fold, Backward on the loss, and the gradient-descent
    update that zeroes every parameter's gradient. */
module Train {
  import opened Value
  import opened Topo
  import opened Backprop
  import opened Table
  import opened Engine
  import opened Forward

  const LearningRate: real := 0.01

  // ---------------------------------------------------------------------
  // Forward passes

  /** One `&Value{Data: v}` leaf per input number, in order. */
  function Leaves(g: Graph, vs: seq<real>): (r: Alloc<seq<nat>>)
    ensures |r.arena| == |g| + |vs| && Extends(g, r.arena)
    ensures WellFormed(g) ==> WellFormed(r.arena)
    ensures r.value == Range(|g|, |vs|) && IndicesIn(r.arena, r.value)
    ensures Datas(r.arena, r.value) == vs
    ensures forall k :: |g| <= k < |r.arena| ==> r.arena[k].grad == 0.0 && r.arena[k].op == NoOp
    ensures WellFormed(g) ==> forall k :: |g| <= k < |r.arena| ==> Unreferenced(r.arena, k)
    ensures Untouched(g, r.arena, [])
  {
    Alloc(g + seq(|vs|, k requires 0 <= k < |vs| => Node(vs[k], 0.0, NoOp)), Range(|g|, |vs|))
  }

  /** The network's first output for one input, as the numbers say. */
  function Prediction(t: seq<seq<NeuronState>>, input: seq<real>, th: real -> real): real
    requires Accepts(Shape(t), |input|) && OutLen(Shape(t), |input|) > 0
  {
    MlpOut(t, input, th)[0]
  }

  /** The body of Run's first loop for one sample: fresh input leaves, the
      network's call, and its first output, which nothing uses yet. */
  function Predict(g: Graph, ls: seq<Layer>, input: seq<real>, th: real -> real): (r: Alloc<nat>)
    requires WellFormed(g) && MlpIn(g, ls)
    requires Accepts(Arities(ls), |input|) && OutLen(Arities(ls), |input|) > 0
    ensures Extends(g, r.arena) && WellFormed(r.arena) && MlpIn(r.arena, ls)
    ensures |g| <= r.value < |r.arena|
    ensures r.arena[r.value].grad == 0.0 && Unreferenced(r.arena, r.value)
    ensures r.arena[r.value].data == Prediction(MlpTable(g, ls), input, th)
    ensures Untouched(g, r.arena, MlpParams(ls))
  {
    var xs := Leaves(g, input);
    TableExtend(g, xs.arena, ls);
    var y := MlpCall(xs.arena, ls, xs.value, th);
    ExtendsTrans(g, xs.arena, y.arena);
    TableExtend(g, y.arena, ls);
    MlpParamsIn(g, ls);
    UntouchedTrans(g, xs.arena, y.arena, [], MlpParams(ls) + xs.value, MlpParams(ls));
    assert Datas(y.arena, y.value)[0] == y.arena[y.value[0]].data;
    Alloc(y.arena, y.value[0])
  }

  /** Run's first loop over the first k samples: one kept output per sample,
      in increasing arena order, each still unused and with gradient 0. */
  function ForwardAll(g: Graph, ls: seq<Layer>, inputs: seq<seq<real>>, k: nat, th: real -> real): (r: Alloc<seq<nat>>)
    requires WellFormed(g) && MlpIn(g, ls) && k <= |inputs|
    requires forall i :: 0 <= i < |inputs| ==> Accepts(Arities(ls), |inputs[i]|) && OutLen(Arities(ls), |inputs[i]|) > 0
    ensures Extends(g, r.arena) && WellFormed(r.arena) && MlpIn(r.arena, ls)
    ensures |r.value| == k && FreshOutputs(g, r.arena, r.value)
    ensures forall i :: 0 <= i < k ==> r.arena[r.value[i]].data == Prediction(MlpTable(g, ls), inputs[i], th)
    ensures Untouched(g, r.arena, MlpParams(ls))
  {
    if k == 0 then Alloc(g, [])
    else
      var prev := ForwardAll(g, ls, inputs, k - 1, th);
      var y := Predict(prev.arena, ls, inputs[k - 1], th);
      ForwardAllStep(g, prev.arena, y.arena, ls, inputs, k, th, prev.value, y.value);
      Alloc(y.arena, prev.value + [y.value])
  }

  lemma ForwardAllStep(g: Graph, h: Graph, g': Graph, ls: seq<Layer>, inputs: seq<seq<real>>, k: nat,
                       th: real -> real, os: seq<nat>, o: nat)
    requires WellFormed(g) && MlpIn(g, ls) && 0 < k <= |inputs|
    requires forall i :: 0 <= i < |inputs| ==> Accepts(Arities(ls), |inputs[i]|) && OutLen(Arities(ls), |inputs[i]|) > 0
    requires Extends(g, h) && MlpIn(h, ls) && Extends(h, g')
    requires |os| == k - 1 && FreshOutputs(g, h, os)
    requires forall i :: 0 <= i < k - 1 ==> h[os[i]].data == Prediction(MlpTable(g, ls), inputs[i], th)
    requires Untouched(g, h, MlpParams(ls))
    requires |h| <= o < |g'| && g'[o].grad == 0.0 && Unreferenced(g', o)
    requires g'[o].data == Prediction(MlpTable(h, ls), inputs[k - 1], th)
    requires Untouched(h, g', MlpParams(ls))
    ensures Extends(g, g') && FreshOutputs(g, g', os + [o])
    ensures forall i :: 0 <= i < k ==> g'[(os + [o])[i]].data == Prediction(MlpTable(g, ls), inputs[i], th)
    ensures Untouched(g, g', MlpParams(ls))
  {
    ExtendsTrans(g, h, g');
    MlpParamsIn(g, ls);
    UntouchedTrans(g, h, g', MlpParams(ls), MlpParams(ls), MlpParams(ls));
    KeptStillFresh(g, h, g', ls, os);
    FreshSnoc(g, h, g', os, o);
    TableExtend(g, h, ls);
    PredictionsSnoc(g, h, g', MlpTable(g, ls), inputs, k, th, os, o);
  }

  lemma FreshSnoc(g: Graph, h: Graph, g': Graph, os: seq<nat>, o: nat)
    requires Extends(g, h) && Extends(h, g') && FreshOutputs(g, h, os)
    requires forall i :: 0 <= i < |os| ==> g'[os[i]].grad == 0.0 && Unreferenced(g', os[i])
    requires |h| <= o < |g'| && g'[o].grad == 0.0 && Unreferenced(g', o)
    ensures FreshOutputs(g, g', os + [o])
  {
  }

  lemma PredictionsSnoc(g: Graph, h: Graph, g': Graph, t: seq<seq<NeuronState>>, inputs: seq<seq<real>>,
                        k: nat, th: real -> real, os: seq<nat>, o: nat)
    requires Extends(h, g') && 0 < k <= |inputs| && |os| == k - 1 && o < |g'|
    requires IndicesIn(h, os)
    requires forall i :: 0 <= i < |inputs| ==> Accepts(Shape(t), |inputs[i]|) && OutLen(Shape(t), |inputs[i]|) > 0
    requires forall i :: 0 <= i < k - 1 ==> h[os[i]].data == Prediction(t, inputs[i], th)
    requires g'[o].data == Prediction(t, inputs[k - 1], th)
    ensures forall i :: 0 <= i < k ==> g'[(os + [o])[i]].data == Prediction(t, inputs[i], th)
  {
    forall i | 0 <= i < k ensures g'[(os + [o])[i]].data == Prediction(t, inputs[i], th) {
      if i < k - 1 {
        assert g'[os[i]] == h[os[i]];
      }
    }
  }

  /** Outputs kept from earlier samples stay unused while later samples run,
      since a later forward pass only reads parameters and its own nodes. */
  lemma KeptStillFresh(g: Graph, h: Graph, g': Graph, ls: seq<Layer>, os: seq<nat>)
    requires Extends(g, h) && Extends(h, g') && FreshOutputs(g, h, os)
    requires forall p :: p in MlpParams(ls) ==> p < |g|
    requires Untouched(h, g', MlpParams(ls))
    ensures forall i :: 0 <= i < |os| ==> g'[os[i]].grad == 0.0 && Unreferenced(g', os[i])
  {
    forall i | 0 <= i < |os| ensures g'[os[i]].grad == 0.0 && Unreferenced(g', os[i]) {
      assert os[i] !in MlpParams(ls);
      assert g'[os[i]] == h[os[i]];
    }
  }

  // ---------------------------------------------------------------------
  // The loss

  /** The loss value: sum of (out - t)^2 over the first k samples, added up
      from the left starting at 0. */
  function SumSq(os: seq<real>, ts: seq<real>, k: nat): real
    requires k <= |os| && k <= |ts|
  {
    if k == 0 then 0.0 else SumSq(os, ts, k - 1) + Square(os[k - 1] - ts[k - 1])
  }

  function Square(x: real): real {
    x * x
  }

  /** Where the nodes of sample i's loss term start, for a fold begun at base. */
  function Slot(base: nat, i: nat): nat {
    base + 1 + 4 * i
  }

  /** The four nodes of one loss term at b: the leaf -t, diff = out + (-t),
      diff * diff, and the running loss plus that square; the running loss
      before this term is the node just below b, the output o lies below. */
  predicate Term(G: Graph, b: nat, o: nat, t: real) {
    && 1 <= b && b + 3 < |G| && o < b
    && G[b] == Node(-t, 0.0, NoOp)
    && G[b + 1].op == AddOp(o, b) && G[b + 1].grad == 0.0 && G[b + 1].data == G[o].data - t
    && G[b + 2].op == MulOp(b + 1, b + 1) && G[b + 2].grad == 0.0
    && G[b + 3].op == AddOp(b - 1, b + 2) && G[b + 3].grad == 0.0
  }

  /** The nodes the loss fold appends to g after k samples. */
  predicate Layout(g: Graph, G: Graph, outs: seq<nat>, ts: seq<real>, k: nat) {
    && k <= |outs| && k <= |ts|
    && |G| == |g| + 1 + 4 * k
    && G[|g|] == Node(0.0, 0.0, NoOp)
    && forall i {:trigger Term(G, Slot(|g|, i), outs[i], ts[i])} :: 0 <= i < k ==> Term(G, Slot(|g|, i), outs[i], ts[i])
  }

  /** Run's second loop over the first k outputs: the loss starts as a zero
      leaf, and each sample adds (out + (-t)) * (out + (-t)). The result holds
      the sum of squared errors, and the loss node is the last one. */
  function LossFold(g: Graph, outs: seq<nat>, ts: seq<real>, k: nat): (r: Alloc<nat>)
    requires WellFormed(g) && IndicesIn(g, outs) && k <= |outs| && k <= |ts|
    ensures Extends(g, r.arena) && WellFormed(r.arena)
    ensures r.value == |g| + 4 * k && Layout(g, r.arena, outs, ts, k)
    ensures r.arena[r.value].data == SumSq(Datas(g, outs), ts, k)
  {
    if k == 0 then Alloc(Leaf(g, 0.0), |g|)
    else
      var prev := LossFold(g, outs, ts, k - 1);
      var h := prev.arena;
      var G := AddTerm(h, prev.value, outs[k - 1], ts[k - 1]);
      LossFoldStep(g, outs, ts, k, h, prev.value, G);
      Alloc(G, |h| + 3)
  }

  /** The body of Run's second loop for one sample: the leaf -t, then
      diff = Add(out, that leaf), result = Mul(diff, diff), and the new
      running loss Add(loss, result). The four nodes are written out here;
      AddTermBuilds shows they are what those four calls append. */
  function AddTerm(h: Graph, loss: nat, o: nat, t: real): (G: Graph)
    requires WellFormed(h) && loss < |h| && o < |h|
    ensures |G| == |h| + 4 && Extends(h, G) && WellFormed(G)
    ensures G[|h|] == Node(-t, 0.0, NoOp)
    ensures G[|h| + 1].op == AddOp(o, |h|) && G[|h| + 1].grad == 0.0
    ensures G[|h| + 2].op == MulOp(|h| + 1, |h| + 1) && G[|h| + 2].grad == 0.0
    ensures G[|h| + 3].op == AddOp(loss, |h| + 2) && G[|h| + 3].grad == 0.0
    ensures G[|h| + 1].data == h[o].data - t
    ensures G[|h| + 3].data == h[loss].data + Square(h[o].data - t)
  {
    var d := h[o].data + -t;
    h + [Node(-t, 0.0, NoOp),
         Node(d, 0.0, AddOp(o, |h|)),
         Node(d * d, 0.0, MulOp(|h| + 1, |h| + 1)),
         Node(h[loss].data + d * d, 0.0, AddOp(loss, |h| + 2))]
  }

  lemma AddTermBuilds(h: Graph, loss: nat, o: nat, t: real)
    requires WellFormed(h) && loss < |h| && o < |h|
    ensures var g1 := Leaf(h, -t);
      var g2 := Add(g1, o, |h|);
      var g3 := Mul(g2, |g1|, |g1|);
      AddTerm(h, loss, o, t) == Add(g3, loss, |g2|)
  {
    var d := h[o].data + -t;
    var g1 := Leaf(h, -t);
    var g2 := Add(g1, o, |h|);
    var g3 := Mul(g2, |g1|, |g1|);
    var g4 := Add(g3, loss, |g2|);
    var G := AddTerm(h, loss, o, t);
    assert g2[|h| + 1].data == d;
    assert g4[|h| + 2].data == d * d;
    assert g4[loss] == h[loss];
    forall i | 0 <= i < |G| ensures G[i] == g4[i] {
      if i == |h| + 2 {
        assert G[i] == Node(d * d, 0.0, MulOp(|h| + 1, |h| + 1));
      } else if i == |h| + 3 {
        assert G[i] == Node(h[loss].data + d * d, 0.0, AddOp(loss, |h| + 2));
      }
    }
  }

  lemma LossFoldStep(g: Graph, outs: seq<nat>, ts: seq<real>, k: nat, h: Graph, loss: nat, G: Graph)
    requires WellFormed(g) && IndicesIn(g, outs) && 0 < k <= |outs| && k <= |ts|
    requires Extends(g, h) && WellFormed(h) && loss == |g| + 4 * (k - 1) && Layout(g, h, outs, ts, k - 1)
    requires h[loss].data == SumSq(Datas(g, outs), ts, k - 1)
    requires G == AddTerm(h, loss, outs[k - 1], ts[k - 1])
    ensures Extends(g, G) && WellFormed(G) && |h| + 3 == |g| + 4 * k
    ensures Layout(g, G, outs, ts, k)
    ensures G[|h| + 3].data == SumSq(Datas(g, outs), ts, k)
  {
    ExtendsTrans(g, h, G);
    SumSqStep(g, outs, ts, k, h);
    LayoutSnoc(g, outs, ts, k, h, loss, G);
  }

  lemma SumSqStep(g: Graph, outs: seq<nat>, ts: seq<real>, k: nat, h: Graph)
    requires IndicesIn(g, outs) && 0 < k <= |outs| && k <= |ts| && Extends(g, h)
    ensures SumSq(Datas(g, outs), ts, k) == SumSq(Datas(g, outs), ts, k - 1) + Square(h[outs[k - 1]].data - ts[k - 1])
  {
    assert Datas(g, outs)[k - 1] == h[outs[k - 1]].data;
  }

  /** The four new nodes form term k - 1, and the earlier terms stay put. */
  lemma LayoutSnoc(g: Graph, outs: seq<nat>, ts: seq<real>, k: nat, h: Graph, loss: nat, G: Graph)
    requires WellFormed(g) && IndicesIn(g, outs) && 0 < k <= |outs| && k <= |ts|
    requires Extends(g, h) && WellFormed(h) && loss == |g| + 4 * (k - 1) && Layout(g, h, outs, ts, k - 1)
    requires G == AddTerm(h, loss, outs[k - 1], ts[k - 1])
    ensures Layout(g, G, outs, ts, k)
  {
    forall i | 0 <= i < k ensures Term(G, Slot(|g|, i), outs[i], ts[i]) {
      if i < k - 1 {
        assert Term(h, Slot(|g|, i), outs[i], ts[i]);
      } else {
        assert Slot(|g|, i) == |h|;
      }
    }
  }

  /** Every node of the fold above its zero leaf is one of the four nodes of
      some term, with that node's operands. */
  lemma InTerm(g: Graph, G: Graph, outs: seq<nat>, ts: seq<real>, k: nat, q: nat)
    requires Layout(g, G, outs, ts, k) && |g| < q < |G|
    ensures var j := (q - |g| - 1) / 4;
      var b := Slot(|g|, j);
      && j < k
      && (q == b ==> Children(G[q].op) == [])
      && (q == b + 1 ==> Children(G[q].op) == [outs[j], b])
      && (q == b + 2 ==> Children(G[q].op) == [b + 1, b + 1])
      && (q == b + 3 ==> Children(G[q].op) == [b - 1, b + 2])
      && b <= q <= b + 3
  {
    var j := (q - |g| - 1) / 4;
    assert Term(G, Slot(|g|, j), outs[j], ts[j]);
  }

  // ---------------------------------------------------------------------
  // The gradients the loss induces

  /** The only user of a running-loss node is the next running-loss node. */
  lemma LossNodeUsers(g: Graph, G: Graph, outs: seq<nat>, ts: seq<real>, k: nat, i: nat, q: nat)
    requires Layout(g, G, outs, ts, k) && IndicesIn(g, outs) && i + 1 < k
    requires Slot(|g|, i) + 3 < q < |G| && q != Slot(|g|, i + 1) + 3
    ensures Slot(|g|, i) + 3 !in Children(G[q].op)
  {
    InTerm(g, G, outs, ts, k, q);
  }

  /** The only user of a square node is the running-loss node of its term. */
  lemma SquareNodeUsers(g: Graph, G: Graph, outs: seq<nat>, ts: seq<real>, k: nat, i: nat, q: nat)
    requires Layout(g, G, outs, ts, k) && IndicesIn(g, outs) && i < k
    requires Slot(|g|, i) + 2 < q < |G| && q != Slot(|g|, i) + 3
    ensures Slot(|g|, i) + 2 !in Children(G[q].op)
  {
    InTerm(g, G, outs, ts, k, q);
  }

  /** The only user of a diff node is the square node of its term. */
  lemma DiffNodeUsers(g: Graph, G: Graph, outs: seq<nat>, ts: seq<real>, k: nat, i: nat, q: nat)
    requires Layout(g, G, outs, ts, k) && IndicesIn(g, outs) && i < k
    requires Slot(|g|, i) + 1 < q < |G| && q != Slot(|g|, i) + 2
    ensures Slot(|g|, i) + 1 !in Children(G[q].op)
  {
    InTerm(g, G, outs, ts, k, q);
  }

  /** The only user of a kept output is the diff node of its own term, when
      the outputs are distinct and nothing used them before the fold. */
  lemma OutputUsers(g: Graph, G: Graph, outs: seq<nat>, ts: seq<real>, k: nat, i: nat, q: nat)
    requires Layout(g, G, outs, ts, k) && Extends(g, G) && IndicesIn(g, outs) && Distinct(outs) && i < k
    requires Unreferenced(g, outs[i])
    requires outs[i] < q < |G| && q != Slot(|g|, i) + 1
    ensures outs[i] !in Children(G[q].op)
  {
    if q < |g| {
      assert G[q] == g[q];
    } else if q > |g| {
      InTerm(g, G, outs, ts, k, q);
    }
  }

  /** A running-loss node x below the last is used only by the next one p,
      a sum of two distinct operands, and starts with gradient 0. */
  lemma LossLink(g: Graph, G: Graph, outs: seq<nat>, ts: seq<real>, k: nat, i: nat, x: nat, p: nat)
    requires WellFormed(G) && IndicesIn(g, outs) && Layout(g, G, outs, ts, k) && i + 1 < k
    requires x == Slot(|g|, i) + 3 && p == Slot(|g|, i + 1) + 3
    ensures SumLink(G, |g| + 4 * k, x, p)
  {
    forall q | x < q <= |g| + 4 * k && q != p ensures x !in Children(G[q].op) {
      LossNodeUsers(g, G, outs, ts, k, i, q);
    }
    assert Term(G, Slot(|g|, i), outs[i], ts[i]);
    assert Term(G, Slot(|g|, i + 1), outs[i + 1], ts[i + 1]);
  }

  /** Each running-loss node is reachable from the final one and receives
      exactly 1. */
  lemma LossAdjoint(g: Graph, G: Graph, outs: seq<nat>, ts: seq<real>, k: nat, i: nat)
    requires WellFormed(G) && IndicesIn(g, outs) && Layout(g, G, outs, ts, k) && i < k
    ensures Slot(|g|, i) + 3 in Reachable(G, |g| + 4 * k)
    ensures Adjoint(G, |g| + 4 * k, Slot(|g|, i) + 3) == 1.0
  {
    var root := |g| + 4 * k;
    var xs: seq<nat> := seq(k, j requires 0 <= j < k => Slot(|g|, j) + 3);
    forall j | 0 <= j < k - 1 ensures SumLink(G, root, xs[j], xs[j + 1]) {
      LossLink(g, G, outs, ts, k, j, xs[j], xs[j + 1]);
    }
    SumChain(G, root, xs, i);
  }

  /** The shape of one loss term at b over output o, seen from the root:
      operands, zero starting gradients, and each node's sole user. */
  predicate TermShape(G: Graph, root: nat, o: nat, b: nat)
    requires WellFormed(G) && root < |G|
  {
    && o < b && b + 3 <= root
    && G[b + 1].op == AddOp(o, b) && G[b + 2].op == MulOp(b + 1, b + 1)
    && G[b + 3].op == AddOp(b - 1, b + 2)
    && G[o].grad == 0.0 && G[b + 1].grad == 0.0 && G[b + 2].grad == 0.0
    && (forall q :: b + 2 < q <= root && q != b + 3 ==> b + 2 !in Children(G[q].op))
    && (forall q :: b + 1 < q <= root && q != b + 2 ==> b + 1 !in Children(G[q].op))
    && (forall q :: o < q <= root && q != b + 1 ==> o !in Children(G[q].op))
  }

  /** The chain rule through one loss term whose running-loss node receives
      1, for any graph of that shape: the square node passes 1 on, the diff
      node receives twice its value, and the output, whose sole user is the
      diff node, receives the same. */
  lemma TermGradient(G: Graph, root: nat, o: nat, b: nat)
    requires WellFormed(G) && root < |G| && TermShape(G, root, o, b)
    requires b + 3 in Reachable(G, root) && Adjoint(G, root, b + 3) == 1.0
    ensures Adjoint(G, root, o) == 2.0 * G[b + 1].data
  {
    ReachableStep(G, root, b + 3, b + 2);
    SoleSumUser(G, root, b + 2, b + 3);
    ReachableStep(G, root, b + 2, b + 1);
    DiffGradient(G, root, b + 1, b + 2);
    SoleSumUser(G, root, o, b + 1);
  }

  /** A node whose sole user squares it, receiving 1, receives twice its own
      value. */
  lemma DiffGradient(G: Graph, root: nat, d: nat, p: nat)
    requires WellFormed(G) && d < p <= root < |G| && p in Reachable(G, root)
    requires G[p].op == MulOp(d, d) && G[d].grad == 0.0 && Adjoint(G, root, p) == 1.0
    requires forall q :: d < q <= root && q != p ==> d !in Children(G[q].op)
    ensures Adjoint(G, root, d) == 2.0 * G[d].data
  {
    SoleUser(G, root, d, p);
    PushSquare(G, p, 1.0, d);
  }

  /** Sample i's term in the fold has that shape over its output, and its
      diff node holds out - t. */
  lemma OutputTerm(g: Graph, G: Graph, outs: seq<nat>, ts: seq<real>, k: nat, i: nat)
    requires WellFormed(G) && Extends(g, G) && IndicesIn(g, outs) && Distinct(outs) && Layout(g, G, outs, ts, k) && i < k
    requires Unreferenced(g, outs[i]) && g[outs[i]].grad == 0.0
    ensures TermShape(G, |g| + 4 * k, outs[i], Slot(|g|, i))
    ensures G[Slot(|g|, i) + 1].data == g[outs[i]].data - ts[i]
  {
    var root, b, x := |g| + 4 * k, Slot(|g|, i), outs[i];
    assert Term(G, b, outs[i], ts[i]);
    forall q | b + 2 < q <= root && q != b + 3 ensures b + 2 !in Children(G[q].op) {
      SquareNodeUsers(g, G, outs, ts, k, i, q);
    }
    forall q | b + 1 < q <= root && q != b + 2 ensures b + 1 !in Children(G[q].op) {
      DiffNodeUsers(g, G, outs, ts, k, i, q);
    }
    forall q | x < q <= root && q != b + 1 ensures x !in Children(G[q].op) {
      OutputUsers(g, G, outs, ts, k, i, q);
    }
    assert G[x] == g[x];
  }

  /** The gradient of the loss on each kept output: 2 * (out - t). It needs
      the outputs to be distinct, unused by anything before the fold, and to
      start with gradient 0, as the forward passes leave them. */
  lemma OutputGradient(g: Graph, G: Graph, outs: seq<nat>, ts: seq<real>, k: nat, i: nat)
    requires WellFormed(G) && Extends(g, G) && IndicesIn(g, outs) && Distinct(outs) && Layout(g, G, outs, ts, k) && i < k
    requires Unreferenced(g, outs[i]) && g[outs[i]].grad == 0.0
    ensures Adjoint(G, |g| + 4 * k, outs[i]) == 2.0 * (g[outs[i]].data - ts[i])
  {
    LossAdjoint(g, G, outs, ts, k, i);
    OutputTerm(g, G, outs, ts, k, i);
    TermGradient(G, |g| + 4 * k, outs[i], Slot(|g|, i));
  }

  // ---------------------------------------------------------------------
  // The update

  /** What the update loop does to one parameter node. */
  function Stepped(n: Node): Node {
    n.(data := n.data - n.grad * LearningRate, grad := 0.0)
  }

  /** Stepping a node twice is stepping it once: its gradient is then 0. */
  lemma SteppedIdempotent(n: Node)
    ensures Stepped(Stepped(n)) == Stepped(n)
  {
  }

  /** Run's last loop: for each listed parameter, in order, move its data
      against its gradient and zero the gradient. A node listed twice is
      stepped once in effect; unlisted nodes are untouched. */
  method Update(g: Graph, ps: seq<nat>) returns (g': Graph)
    requires IndicesIn(g, ps)
    ensures |g'| == |g|
    ensures forall j :: 0 <= j < |g| && j in ps ==> g'[j] == Stepped(g[j])
    ensures forall j :: 0 <= j < |g| && j !in ps ==> g'[j] == g[j]
  {
    g' := g;
    var k := 0;
    while k < |ps|
      invariant 0 <= k <= |ps| && |g'| == |g|
      invariant forall j :: 0 <= j < |g| && j in ps[..k] ==> g'[j] == Stepped(g[j])
      invariant forall j :: 0 <= j < |g| && j !in ps[..k] ==> g'[j] == g[j]
    {
      var p := ps[k];
      SteppedIdempotent(g[p]);
      g' := g'[p := Stepped(g'[p])];
      assert ps[..k + 1] == ps[..k] + [p];
      k := k + 1;
    }
    assert ps[..k] == ps;
  }

  // ---------------------------------------------------------------------
  // The whole step

  /** What Run builds before calling Backward: the forward passes, then the
      loss over their first outputs; the value is the loss node. */
  function Built(g: Graph, m: Mlp, inputs: seq<seq<real>>, ts: seq<real>, th: real -> real): (r: Alloc<nat>)
    requires WellFormed(g) && MlpIn(g, m.layers) && |inputs| <= |ts|
    requires forall i :: 0 <= i < |inputs| ==> Accepts(Arities(m.layers), |inputs[i]|) && OutLen(Arities(m.layers), |inputs[i]|) > 0
    ensures WellFormed(r.arena) && |g| <= r.value == |r.arena| - 1
  {
    var f := ForwardAll(g, m.layers, inputs, |inputs|, th);
    LossFold(f.arena, f.value, ts, |inputs|)
  }

  /** Every parameter p ends with gradient 0 and with its data in g moved by
      LearningRate times its reference gradient in B, the graph built before
      Backward with the loss node at loss. */
  predicate Descended(g: Graph, g': Graph, B: Graph, loss: nat, ps: seq<nat>)
    requires WellFormed(B) && |g| <= loss < |B| && |g| <= |g'|
  {
    forall p :: p in ps ==> p < |g| && g'[p].grad == 0.0 && g'[p].data == g[p].data - Adjoint(B, loss, p) * LearningRate
  }

  /** Every node other than the listed parameters is as Backward left it in
      B: data and operands unchanged, gradient its reference gradient from
      the loss node, the last one. */
  predicate BackwardKept(g': Graph, B: Graph, loss: nat, ps: seq<nat>)
    requires WellFormed(B) && loss == |B| - 1
  {
    && |g'| == |B|
    && forall j :: 0 <= j < |B| && j !in ps ==>
         g'[j].data == B[j].data && g'[j].op == B[j].op && g'[j].grad == Adjoint(B, loss, j)
  }

  /** Run: forward passes, loss, Backward, update. The loss holds the sum of
      squared errors of the network's first outputs; each output ends with
      gradient 2 * (out - t); each parameter moves by 0.01 times its
      reference gradient in the built graph and ends with gradient 0. The
      source's log line reads the first weight of the first neuron, so the
      network must have one. */
  method Run(g: Graph, m: Mlp, inputs: seq<seq<real>>, ts: seq<real>, th: real -> real)
    returns (g': Graph, outs: seq<nat>, loss: nat)
    requires WellFormed(g) && MlpIn(g, m.layers) && |inputs| <= |ts|
    requires forall i :: 0 <= i < |inputs| ==> Accepts(Arities(m.layers), |inputs[i]|) && OutLen(Arities(m.layers), |inputs[i]|) > 0
    requires |m.layers| > 0 && |m.layers[0].neurons| > 0 && |m.layers[0].neurons[0].w| > 0
    ensures |outs| == |inputs| && IndicesIn(g', outs) && |g| <= loss < |g'|
    ensures forall i :: 0 <= i < |inputs| ==> g'[outs[i]].data == Prediction(MlpTable(g, m.layers), inputs[i], th)
    ensures g'[loss].data == SumSq(Datas(g', outs), ts, |inputs|)
    ensures forall i :: 0 <= i < |inputs| ==> g'[outs[i]].grad == 2.0 * (g'[outs[i]].data - ts[i])
    ensures var b := Built(g, m, inputs, ts, th);
      Descended(g, g', b.arena, b.value, Parameters(m))
    ensures var b := Built(g, m, inputs, ts, th);
      BackwardKept(g', b.arena, b.value, Parameters(m))
  {
    var f := ForwardAll(g, m.layers, inputs, |inputs|, th);
    outs := f.value;
    var b := LossFold(f.arena, outs, ts, |inputs|);
    assert b == Built(g, m, inputs, ts, th);
    loss := b.value;
    var G := Backward(b.arena, loss);
    MlpParamsIn(g, m.layers);
    g' := Update(G, Parameters(m));
    ExtendsTrans(g, f.arena, b.arena);
    RunKept(g, Parameters(m), f.arena, outs, ts, |inputs|, b.arena, loss, G, g');
    RunGrads(g, Parameters(m), f.arena, outs, ts, |inputs|, b.arena, loss, G, g');
    RunParams(g, Parameters(m), b.arena, loss, G, g');
    RunFrame(Parameters(m), b.arena, loss, G, g');
  }

  /** The update leaves the kept outputs and the loss node alone: they are not
      parameters, being newer than every parameter. */
  lemma RunKept(g: Graph, ps: seq<nat>, F: Graph, outs: seq<nat>, ts: seq<real>, k: nat,
                B: Graph, loss: nat, G: Graph, g': Graph)
    requires |outs| == k <= |ts| && forall p :: p in ps ==> p < |g|
    requires FreshOutputs(g, F, outs) && Extends(F, B) && |g| <= loss < |B|
    requires B[loss].data == SumSq(Datas(F, outs), ts, k)
    requires |G| == |B| && forall x :: 0 <= x < |B| ==> G[x].data == B[x].data
    requires |g'| == |G| && forall j :: 0 <= j < |G| && j !in ps ==> g'[j] == G[j]
    ensures IndicesIn(g', outs) && loss < |g'|
    ensures forall i :: 0 <= i < k ==> g'[outs[i]].data == F[outs[i]].data
    ensures g'[loss].data == SumSq(Datas(g', outs), ts, k)
  {
    assert loss !in ps;
    forall i | 0 <= i < k ensures g'[outs[i]].data == F[outs[i]].data {
      assert outs[i] !in ps;
    }
    assert Datas(g', outs) == Datas(F, outs);
  }

  /** After Backward and the update each kept output holds 2 * (out - t). */
  lemma RunGrads(g: Graph, ps: seq<nat>, F: Graph, outs: seq<nat>, ts: seq<real>, k: nat,
                 B: Graph, loss: nat, G: Graph, g': Graph)
    requires |outs| == k <= |ts| && forall p :: p in ps ==> p < |g|
    requires FreshOutputs(g, F, outs)
    requires WellFormed(B) && Extends(F, B) && Layout(F, B, outs, ts, k) && loss == |F| + 4 * k
    requires |G| == |B| && forall x :: 0 <= x < |B| ==> G[x].data == B[x].data
    requires forall x :: 0 <= x <= loss ==> G[x].grad == Adjoint(B, loss, x)
    requires |g'| == |G| && forall j :: 0 <= j < |G| && j !in ps ==> g'[j] == G[j]
    ensures IndicesIn(g', outs)
    ensures forall i :: 0 <= i < k ==> g'[outs[i]].grad == 2.0 * (g'[outs[i]].data - ts[i])
  {
    assert Distinct(outs);
    forall i | 0 <= i < k ensures g'[outs[i]].grad == 2.0 * (g'[outs[i]].data - ts[i]) {
      assert outs[i] !in ps;
      assert B[outs[i]] == F[outs[i]];
      OutputGradient(F, B, outs, ts, k, i);
    }
  }

  /** The update touches only parameters, so every other node keeps the
      state Backward gave it. */
  lemma RunFrame(ps: seq<nat>, B: Graph, loss: nat, G: Graph, g': Graph)
    requires WellFormed(B) && loss == |B| - 1
    requires |G| == |B| && forall x :: 0 <= x < |B| ==> G[x].data == B[x].data && G[x].op == B[x].op
    requires forall x :: 0 <= x <= loss ==> G[x].grad == Adjoint(B, loss, x)
    requires |g'| == |G| && forall j :: 0 <= j < |G| && j !in ps ==> g'[j] == G[j]
    ensures BackwardKept(g', B, loss, ps)
  {
  }

  /** Each parameter ends with its data moved by LearningRate times its
      reference gradient and with gradient 0. */
  lemma RunParams(g: Graph, ps: seq<nat>, B: Graph, loss: nat, G: Graph, g': Graph)
    requires forall p :: p in ps ==> p < |g|
    requires WellFormed(B) && Extends(g, B) && |g| <= loss < |B|
    requires |G| == |B| && forall x :: 0 <= x < |B| ==> G[x].data == B[x].data
    requires forall x :: 0 <= x <= loss ==> G[x].grad == Adjoint(B, loss, x)
    requires |g'| == |G| && forall j :: 0 <= j < |G| && j in ps ==> g'[j] == Stepped(G[j])
    ensures |g| <= |g'|
    ensures Descended(g, g', B, loss, ps)
  {
    forall p | p in ps ensures p < |g| && g'[p].grad == 0.0 && g'[p].data == g[p].data - Adjoint(B, loss, p) * LearningRate {
      assert B[p] == g[p];
    }
  }
}
