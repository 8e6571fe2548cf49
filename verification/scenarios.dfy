/** The expression graphs of the repository's tests (micrograd_test.go),
    built with the same calls, with the gradients Backward leaves on them.
    Numbers are exact reals; math.Tanh stays a parameter th, so the tanh
    cases state their gradients through th. */
module Scenarios {
  import opened Value
  import opened Topo
  import opened Backprop

  /** a, b, c, e = a * b, d = e + c, f, L = d * f with a = 2, b = -3,
      c = 10, f = -2. */
  function ChainGraph(): Graph {
    [Node(2.0, 0.0, NoOp), Node(-3.0, 0.0, NoOp), Node(10.0, 0.0, NoOp), Node(-6.0, 0.0, MulOp(0, 1)),
     Node(4.0, 0.0, AddOp(3, 2)), Node(-2.0, 0.0, NoOp), Node(-8.0, 0.0, MulOp(4, 5))]
  }

  /** The first five nodes: a, b, c, e = a * b, d = e + c. */
  lemma ChainHead()
    ensures Add(Mul(Leaf(Leaf(Leaf([], 2.0), -3.0), 10.0), 0, 1), 3, 2) == ChainGraph()[..5]
  {
    var g := Leaf(Leaf(Leaf([], 2.0), -3.0), 10.0);
    assert g == ChainGraph()[..3];
  }

  lemma ChainBuilt()
    ensures var g := Leaf(Leaf(Leaf([], 2.0), -3.0), 10.0);
      ChainGraph() == Mul(Leaf(Add(Mul(g, 0, 1), 3, 2), -2.0), 4, 5)
  {
    ChainHead();
    var h := ChainGraph()[..5];
    assert Leaf(h, -2.0) == ChainGraph()[..6];
  }

  /** L is -8, and a's gradient is f * b = 6. */
  method ChainGrad() returns (g': Graph)
    ensures |g'| == 7 && g'[6].data == -8.0 && g'[6].grad == 1.0 && g'[0].grad == 6.0
  {
    var g := ChainGraph();
    assert WellFormed(g) && Adjoint(g, 6, 0) == 6.0;
    g' := Backward(g, 6);
  }

  /** b = a + a with a = 2: both operand slots feed a, whose gradient is 2. */
  method SameOperandGrad() returns (g': Graph)
    ensures |g'| == 2 && g'[1].data == 4.0 && g'[0].grad == 2.0
  {
    var g := Add(Leaf([], 2.0), 0, 0);
    g' := Backward(g, 1);
  }

  /** b = tanh(a) with a = 1: a's gradient is 1 - tanh(1)^2. */
  method TanhGrad(th: real -> real) returns (g': Graph)
    ensures |g'| == 2 && g'[1].data == th(1.0) && g'[0].grad == 1.0 - th(1.0) * th(1.0)
  {
    var g := Tanh(Leaf([], 1.0), 0, th);
    g' := Backward(g, 1);
  }

  // ---------------------------------------------------------------------
  // tanh(x1 * w1 + x2 * w2 + b) with x1 = 2, x2 = 0.5, w1 = -3, w2 = 1, b = 6.8

  /** The nodes below the tanh: x1, x2, w1, w2, b, x1*w1, x2*w2, their sum,
      and the pre-activation 1.3. */
  function NeuronPre(): Graph {
    [Node(2.0, 0.0, NoOp), Node(0.5, 0.0, NoOp), Node(-3.0, 0.0, NoOp), Node(1.0, 0.0, NoOp),
     Node(6.8, 0.0, NoOp), Node(-6.0, 0.0, MulOp(0, 2)), Node(0.5, 0.0, MulOp(1, 3)),
     Node(-5.5, 0.0, AddOp(5, 6)), Node(1.3, 0.0, AddOp(7, 4))]
  }

  /** The five leaves and x1 * w1. */
  lemma NeuronPreHead()
    ensures Mul(Leaf(Leaf(Leaf(Leaf(Leaf([], 2.0), 0.5), -3.0), 1.0), 6.8), 0, 2) == NeuronPre()[..6]
  {
    var g := Leaf(Leaf(Leaf(Leaf(Leaf([], 2.0), 0.5), -3.0), 1.0), 6.8);
    assert g == NeuronPre()[..5];
  }

  lemma NeuronPreBuilt()
    ensures var g := Leaf(Leaf(Leaf(Leaf(Leaf([], 2.0), 0.5), -3.0), 1.0), 6.8);
      NeuronPre() == Add(Add(Mul(Mul(g, 0, 2), 1, 3), 5, 6), 7, 4)
  {
    NeuronPreHead();
    var h := NeuronPre()[..6];
    assert Add(Mul(h, 1, 3), 5, 6) == NeuronPre()[..8];
  }

  function NeuronGraph(th: real -> real): (g: Graph)
    ensures WellFormed(g) && |g| == 10
  {
    Tanh(NeuronPre(), 8, th)
  }

  /** The local derivative of the output, 1 - tanh(1.3)^2. */
  function Slope(th: real -> real): real {
    1.0 - th(1.3) * th(1.3)
  }

  /** No node from x + 1 up to q uses x, except possibly p. */
  predicate OnlyUser(g: Graph, x: nat, p: nat, q: nat)
    requires q < |g|
    decreases q
  {
    q <= x || ((q == p || x !in Children(g[q].op)) && OnlyUser(g, x, p, q - 1))
  }

  lemma {:induction false} OnlyUserSound(g: Graph, x: nat, p: nat, q: nat)
    requires q < |g| && OnlyUser(g, x, p, q)
    ensures forall j :: x < j <= q && j != p ==> x !in Children(g[j].op)
    decreases q
  {
    if q > x {
      OnlyUserSound(g, x, p, q - 1);
    }
  }

  lemma TanhTopUsers(pre: Graph, th: real -> real, x: nat, p: nat)
    requires WellFormed(pre) && |pre| == 9 && x < 8 && OnlyUser(pre, x, p, 8)
    ensures forall q :: x < q <= 9 && q != p ==> x !in Children(Tanh(pre, 8, th)[q].op)
  {
    OnlyUserSound(pre, x, p, 8);
  }

  lemma NeuronOutput(th: real -> real)
    ensures Adjoint(NeuronGraph(th), 9, 8) == Slope(th)
  {
    var g := NeuronGraph(th);
    SoleUser(g, 9, 8, 9);
    PushTanh(g, 9, 1.0, 8);
  }

  /** The pre-activation sum x1*w1 + x2*w2 passes the slope on. */
  lemma NeuronSum(th: real -> real)
    ensures Adjoint(NeuronGraph(th), 9, 7) == Slope(th) && 7 in Reachable(NeuronGraph(th), 9)
  {
    var pre, g := NeuronPre(), NeuronGraph(th);
    NeuronOutput(th);
    ReachableStep(g, 9, 9, 8);
    TanhTopUsers(pre, th, 7, 8);
    SoleUser(g, 9, 7, 8);
    ReachableStep(g, 9, 8, 7);
  }

  /** So does the bias. */
  lemma NeuronBias(th: real -> real)
    ensures Adjoint(NeuronGraph(th), 9, 4) == Slope(th)
  {
    var pre, g := NeuronPre(), NeuronGraph(th);
    NeuronOutput(th);
    ReachableStep(g, 9, 9, 8);
    TanhTopUsers(pre, th, 4, 8);
    SoleUser(g, 9, 4, 8);
  }

  lemma NeuronFirstProduct(th: real -> real)
    ensures Adjoint(NeuronGraph(th), 9, 5) == Slope(th) && 5 in Reachable(NeuronGraph(th), 9)
  {
    var pre, g := NeuronPre(), NeuronGraph(th);
    NeuronSum(th);
    TanhTopUsers(pre, th, 5, 7);
    SoleUser(g, 9, 5, 7);
    ReachableStep(g, 9, 7, 5);
  }

  lemma NeuronSecondProduct(th: real -> real)
    ensures Adjoint(NeuronGraph(th), 9, 6) == Slope(th) && 6 in Reachable(NeuronGraph(th), 9)
  {
    var pre, g := NeuronPre(), NeuronGraph(th);
    NeuronSum(th);
    TanhTopUsers(pre, th, 6, 7);
    SoleUser(g, 9, 6, 7);
    ReachableStep(g, 9, 7, 6);
  }

  /** x1 receives w1 times the slope. */
  lemma NeuronX1(th: real -> real)
    ensures Adjoint(NeuronGraph(th), 9, 0) == -3.0 * Slope(th)
  {
    var pre, g := NeuronPre(), NeuronGraph(th);
    NeuronFirstProduct(th);
    TanhTopUsers(pre, th, 0, 5);
    SoleUser(g, 9, 0, 5);
  }

  /** w1 receives x1 times the slope. */
  lemma NeuronW1(th: real -> real)
    ensures Adjoint(NeuronGraph(th), 9, 2) == 2.0 * Slope(th)
  {
    var pre, g := NeuronPre(), NeuronGraph(th);
    NeuronFirstProduct(th);
    TanhTopUsers(pre, th, 2, 5);
    SoleUser(g, 9, 2, 5);
  }

  /** x2 receives w2 = 1 times the slope. */
  lemma NeuronX2(th: real -> real)
    ensures Adjoint(NeuronGraph(th), 9, 1) == Slope(th)
  {
    var pre, g := NeuronPre(), NeuronGraph(th);
    NeuronSecondProduct(th);
    TanhTopUsers(pre, th, 1, 6);
    SoleUser(g, 9, 1, 6);
  }

  /** w2 receives x2 = 0.5 times the slope. */
  lemma NeuronW2(th: real -> real)
    ensures Adjoint(NeuronGraph(th), 9, 3) == 0.5 * Slope(th)
  {
    var pre, g := NeuronPre(), NeuronGraph(th);
    NeuronSecondProduct(th);
    TanhTopUsers(pre, th, 3, 6);
    SoleUser(g, 9, 3, 6);
  }

  /** Backward on the neuron: x1 gets -3 s, w1 gets 2 s, and x2 and b both
      get s, for s = 1 - tanh(1.3)^2. */
  method NeuronGrad(th: real -> real) returns (g': Graph)
    ensures |g'| == 10 && g'[9].data == th(1.3)
    ensures g'[0].grad == -3.0 * Slope(th) && g'[2].grad == 2.0 * Slope(th)
    ensures g'[1].grad == Slope(th) && g'[4].grad == Slope(th) && g'[3].grad == 0.5 * Slope(th)
  {
    var g := NeuronGraph(th);
    NeuronBias(th);
    NeuronX1(th);
    NeuronW1(th);
    NeuronX2(th);
    NeuronW2(th);
    g' := Backward(g, 9);
  }
}
