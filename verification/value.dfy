/** The scalar node of the autodiff engine and its three constructors
    (nn/value.go). Nodes live in an arena: a node's identity is its index, and
    every operand index is smaller than the index of the node that uses it, so
    the operand graph is acyclic by construction. */
module Value {

  /** How a node was produced. The source tags nodes with the strings "",
      "+", "*" and "tanh" and keeps the operands in a separate slice; here
      each tag carries exactly the operands its rule needs. */
  datatype Op = NoOp | AddOp(l: nat, r: nat) | MulOp(l: nat, r: nat) | TanhOp(arg: nat)

  datatype Node = Node(data: real, grad: real, op: Op)

  type Graph = seq<Node>

  /** An arena together with something that was built in it. */
  datatype Alloc<T> = Alloc(arena: Graph, value: T)

  /** The operand list of a node, in the order the source stores it. */
  function Children(op: Op): seq<nat> {
    match op
    case NoOp => []
    case AddOp(l, r) => [l, r]
    case MulOp(l, r) => [l, r]
    case TanhOp(a) => [a]
  }

  predicate OperandsBelow(op: Op, i: nat) {
    match op
    case NoOp => true
    case AddOp(l, r) => l < i && r < i
    case MulOp(l, r) => l < i && r < i
    case TanhOp(a) => a < i
  }

  /** Every operand refers to an older node: the arena is a DAG. */
  predicate WellFormed(g: Graph) {
    forall i :: 0 <= i < |g| ==> OperandsBelow(g[i].op, i)
  }

  /** g' keeps every node of g in place. */
  predicate Extends(g: Graph, g': Graph) {
    |g| <= |g'| && forall j :: 0 <= j < |g| ==> g'[j] == g[j]
  }

  /** No node of g uses v as an operand. */
  predicate Unreferenced(g: Graph, v: nat) {
    forall i :: 0 <= i < |g| ==> v !in Children(g[i].op)
  }

  predicate IndicesIn(g: Graph, xs: seq<nat>) {
    forall k :: 0 <= k < |xs| ==> xs[k] < |g|
  }

  /** The data of the nodes xs, in order. */
  function Datas(g: Graph, xs: seq<nat>): seq<real>
    requires IndicesIn(g, xs)
  {
    seq(|xs|, k requires 0 <= k < |xs| => g[xs[k]].data)
  }

  lemma ChildBelow(g: Graph, i: nat, c: nat)
    requires WellFormed(g) && i < |g| && c in Children(g[i].op)
    ensures c < i
  {
  }

  lemma ExtendsTrans(g1: Graph, g2: Graph, g3: Graph)
    requires Extends(g1, g2) && Extends(g2, g3)
    ensures Extends(g1, g3)
  {
  }

  lemma DatasExtend(g: Graph, g': Graph, xs: seq<nat>)
    requires Extends(g, g') && IndicesIn(g, xs)
    ensures IndicesIn(g', xs) && Datas(g', xs) == Datas(g, xs)
  {
  }

  lemma DatasConcat(g: Graph, xs: seq<nat>, ys: seq<nat>)
    requires IndicesIn(g, xs) && IndicesIn(g, ys)
    ensures IndicesIn(g, xs + ys) && Datas(g, xs + ys) == Datas(g, xs) + Datas(g, ys)
  {
  }

  /** Appends one node; shared by the constructors below. */
  function Append(g: Graph, n: Node): (g': Graph)
    requires OperandsBelow(n.op, |g|)
    ensures |g'| == |g| + 1 && Extends(g, g') && g'[|g|] == n
    ensures WellFormed(g) ==> WellFormed(g')
    ensures WellFormed(g) ==> Unreferenced(g', |g|)
    ensures forall v :: Unreferenced(g, v) && v !in Children(n.op) ==> Unreferenced(g', v)
  {
    g + [n]
  }

  /** A fresh leaf, as built by a `&Value{Data: x}` literal: no operands, gradient 0. */
  function Leaf(g: Graph, x: real): (g': Graph)
    ensures |g'| == |g| + 1 && Extends(g, g')
    ensures g'[|g|].data == x && g'[|g|].grad == 0.0 && g'[|g|].op == NoOp
    ensures WellFormed(g) ==> WellFormed(g') && Unreferenced(g', |g|)
    ensures forall v :: Unreferenced(g, v) ==> Unreferenced(g', v)
  {
    Append(g, Node(x, 0.0, NoOp))
  }

  /** Add(a, b): a fresh node holding a + b; the operands are left as they are. */
  function Add(g: Graph, a: nat, b: nat): (g': Graph)
    requires a < |g| && b < |g|
    ensures |g'| == |g| + 1 && Extends(g, g')
    ensures g'[|g|].data == g[a].data + g[b].data && g'[|g|].grad == 0.0
    ensures g'[|g|].op == AddOp(a, b) && Children(g'[|g|].op) == [a, b]
    ensures WellFormed(g) ==> WellFormed(g') && Unreferenced(g', |g|)
    ensures forall v :: Unreferenced(g, v) && v != a && v != b ==> Unreferenced(g', v)
  {
    Append(g, Node(g[a].data + g[b].data, 0.0, AddOp(a, b)))
  }

  /** Mul(a, b): a fresh node holding a * b; the operands are left as they are. */
  function Mul(g: Graph, a: nat, b: nat): (g': Graph)
    requires a < |g| && b < |g|
    ensures |g'| == |g| + 1 && Extends(g, g')
    ensures g'[|g|].data == g[a].data * g[b].data && g'[|g|].grad == 0.0
    ensures g'[|g|].op == MulOp(a, b) && Children(g'[|g|].op) == [a, b]
    ensures WellFormed(g) ==> WellFormed(g') && Unreferenced(g', |g|)
    ensures forall v :: Unreferenced(g, v) && v != a && v != b ==> Unreferenced(g', v)
  {
    Append(g, Node(g[a].data * g[b].data, 0.0, MulOp(a, b)))
  }

  /** Tanh(a): a fresh node holding th(a), where th stands for math.Tanh. */
  function Tanh(g: Graph, a: nat, th: real -> real): (g': Graph)
    requires a < |g|
    ensures |g'| == |g| + 1 && Extends(g, g')
    ensures g'[|g|].data == th(g[a].data) && g'[|g|].grad == 0.0
    ensures g'[|g|].op == TanhOp(a) && Children(g'[|g|].op) == [a]
    ensures WellFormed(g) ==> WellFormed(g') && Unreferenced(g', |g|)
    ensures forall v :: Unreferenced(g, v) && v != a ==> Unreferenced(g', v)
  {
    Append(g, Node(th(g[a].data), 0.0, TanhOp(a)))
  }

  /** The amount that node p, holding gradient gp, adds to the gradient of x
      under p's local rule: the sum rule for "+", the product rule for "*",
      1 - y*y of p's own output y for "tanh", nothing for a leaf. An operand
      that occurs twice receives both contributions. */
  function Push(g: Graph, p: nat, gp: real, x: nat): (d: real)
    requires WellFormed(g) && p < |g|
    ensures x !in Children(g[p].op) ==> d == 0.0
  {
    match g[p].op
    case NoOp => 0.0
    case AddOp(l, r) => (if l == x then gp else 0.0) + (if r == x then gp else 0.0)
    case MulOp(l, r) =>
      (if l == x then gp * g[r].data else 0.0) + (if r == x then gp * g[l].data else 0.0)
    case TanhOp(a) => if a == x then gp * (1.0 - g[p].data * g[p].data) else 0.0
  }

  /** The sum rule: each distinct operand of an addition receives the whole
      gradient of the sum. */
  lemma PushAdd(g: Graph, p: nat, gp: real, x: nat)
    requires WellFormed(g) && p < |g| && g[p].op.AddOp? && g[p].op.l != g[p].op.r
    requires x in Children(g[p].op)
    ensures Push(g, p, gp, x) == gp
  {
  }

  /** The product rule for two distinct operands: each receives the
      gradient times the other's data. */
  lemma PushMul(g: Graph, p: nat, gp: real, x: nat)
    requires WellFormed(g) && p < |g| && g[p].op.MulOp? && g[p].op.l != g[p].op.r
    requires x in Children(g[p].op)
    ensures g[p].op.l == x ==> Push(g, p, gp, x) == gp * g[g[p].op.r].data
    ensures g[p].op.r == x ==> Push(g, p, gp, x) == gp * g[g[p].op.l].data
  {
  }

  /** The product rule for a square a * a: the operand receives both
      contributions, 2 * a * gp. */
  lemma PushSquare(g: Graph, p: nat, gp: real, x: nat)
    requires WellFormed(g) && p < |g| && g[p].op == MulOp(x, x)
    ensures Push(g, p, gp, x) == 2.0 * gp * g[x].data
  {
  }

  /** The tanh rule: the operand receives gp * (1 - y * y), y being the
      node's own output. */
  lemma PushTanh(g: Graph, p: nat, gp: real, x: nat)
    requires WellFormed(g) && p < |g| && g[p].op == TanhOp(x)
    ensures Push(g, p, gp, x) == gp * (1.0 - g[p].data * g[p].data)
  {
  }

  /** Push reads only data and operands, never gradients. */
  lemma PushFrame(g: Graph, g': Graph, p: nat, gp: real, x: nat)
    requires WellFormed(g) && WellFormed(g') && p < |g| == |g'|
    requires forall j :: 0 <= j < |g| ==> g'[j].data == g[j].data && g'[j].op == g[j].op
    ensures Push(g', p, gp, x) == Push(g, p, gp, x)
  {
  }

  function Bump(g: Graph, i: nat, d: real): (g': Graph)
    requires i < |g|
  {
    g[i := g[i].(grad := g[i].grad + d)]
  }

  /** (*Value).backward: push node v's gradient onto its operands, one
      `+=` per operand in operand order. */
  function Propagate(g: Graph, v: nat): (g': Graph)
    requires WellFormed(g) && v < |g|
    ensures |g'| == |g| && WellFormed(g')
    ensures forall j :: 0 <= j < |g| ==> g'[j].data == g[j].data && g'[j].op == g[j].op
    ensures forall j :: 0 <= j < |g| ==> g'[j].grad == g[j].grad + Push(g, v, g[v].grad, j)
  {
    var gv := g[v].grad;
    match g[v].op
    case NoOp => g
    case AddOp(l, r) => Bump(Bump(g, l, gv), r, gv)
    case MulOp(l, r) => Bump(Bump(g, l, gv * g[r].data), r, gv * g[l].data)
    case TanhOp(a) => Bump(g, a, gv * (1.0 - g[v].data * g[v].data))
  }
}
