/** The reverse gradient sweep of `Backward` (nn/value.go:80-105) and the
    chain-rule reference it is proved against. */
module Backprop {
  import opened Value
  import opened Topo

  /** The gradient x holds after Backward(root): the root holds 1; any other
      node keeps its prior gradient plus what every node reachable from the
      root pushes into it, each pusher holding its own final gradient. This
      is the chain rule with accumulation over shared operands, stated without
      reference to any visiting order. */
  function Adjoint(g: Graph, root: nat, x: nat): real
    requires WellFormed(g) && x <= root < |g|
    decreases root - x, 1
  {
    if x == root then 1.0 else g[x].grad + Inflow(g, root, Reachable(g, root), x, x + 1)
  }

  /** The sum, over the nodes p of s with lo <= p <= root, of what p pushes
      into x. */
  function Inflow(g: Graph, root: nat, s: set<nat>, x: nat, lo: nat): real
    requires WellFormed(g) && root < |g| && x < lo <= root + 1
    decreases root - x, 0, root + 1 - lo
  {
    if lo > root then 0.0
    else (if lo in s then Push(g, lo, Adjoint(g, root, lo), x) else 0.0) + Inflow(g, root, s, x, lo + 1)
  }

  /** The sum, over the list qs, of what each entry pushes into x. */
  function SweepSum(g: Graph, root: nat, qs: seq<nat>, x: nat): real
    requires WellFormed(g) && root < |g|
    requires forall k :: 0 <= k < |qs| ==> qs[k] <= root
  {
    if |qs| == 0 then 0.0
    else Push(g, qs[0], Adjoint(g, root, qs[0]), x) + SweepSum(g, root, qs[1..], x)
  }

  /** The gradient a node holds when the sweep starts. */
  function Base(g: Graph, root: nat, x: nat): real
    requires x < |g|
  {
    if x == root then 1.0 else g[x].grad
  }

  lemma {:induction false} InflowEmpty(g: Graph, root: nat, x: nat, lo: nat)
    requires WellFormed(g) && root < |g| && x < lo <= root + 1
    ensures Inflow(g, root, {}, x, lo) == 0.0
    decreases root + 1 - lo
  {
    if lo <= root {
      InflowEmpty(g, root, x, lo + 1);
    }
  }

  lemma {:induction false} InflowInsert(g: Graph, root: nat, s: set<nat>, p: nat, x: nat, lo: nat)
    requires WellFormed(g) && root < |g| && x < lo <= root + 1
    requires x < p <= root && p !in s
    ensures Inflow(g, root, s + {p}, x, lo)
         == Inflow(g, root, s, x, lo) + (if lo <= p then Push(g, p, Adjoint(g, root, p), x) else 0.0)
    decreases root + 1 - lo
  {
    if lo <= root {
      InflowInsert(g, root, s, p, x, lo + 1);
    }
  }

  /** Two sets give the same inflow when they differ only on nodes that do
      not use x. */
  lemma {:induction false} InflowAgree(g: Graph, root: nat, s: set<nat>, t: set<nat>, x: nat, lo: nat)
    requires WellFormed(g) && root < |g| && x < lo <= root + 1
    requires forall p :: lo <= p <= root && (p in s) != (p in t) ==> x !in Children(g[p].op)
    ensures Inflow(g, root, s, x, lo) == Inflow(g, root, t, x, lo)
    decreases root + 1 - lo
  {
    if lo <= root {
      InflowAgree(g, root, s, t, x, lo + 1);
    }
  }

  /** The entries of qs above x. */
  function Above(qs: seq<nat>, x: nat): set<nat> {
    set p | p in qs && x < p
  }

  lemma {:induction false} SweepAsInflow(g: Graph, root: nat, qs: seq<nat>, x: nat)
    requires WellFormed(g) && x <= root < |g|
    requires Distinct(qs) && forall k :: 0 <= k < |qs| ==> qs[k] <= root
    ensures SweepSum(g, root, qs, x) == Inflow(g, root, Above(qs, x), x, x + 1)
  {
    if |qs| == 0 {
      assert Above(qs, x) == {};
      InflowEmpty(g, root, x, x + 1);
    } else {
      var q, rest := qs[0], qs[1..];
      assert Distinct(rest);
      SweepAsInflow(g, root, rest, x);
      if q <= x {
        assert x !in Children(g[q].op) by {
          if x in Children(g[q].op) { ChildBelow(g, q, x); }
        }
        assert Above(qs, x) == Above(rest, x);
      } else {
        assert Above(qs, x) == Above(rest, x) + {q};
        assert q !in Above(rest, x);
        InflowInsert(g, root, Above(rest, x), q, x, x + 1);
      }
    }
  }

  lemma {:induction false} SweepZero(g: Graph, root: nat, qs: seq<nat>, x: nat)
    requires WellFormed(g) && root < |g|
    requires forall k :: 0 <= k < |qs| ==> qs[k] <= root && x !in Children(g[qs[k]].op)
    ensures SweepSum(g, root, qs, x) == 0.0
  {
    if |qs| > 0 {
      SweepZero(g, root, qs[1..], x);
    }
  }

  lemma ListedBelowRoot(g: Graph, root: nat, topo: seq<nat>)
    requires WellFormed(g) && root < |g|
    requires forall x :: x in topo <==> x in Reachable(g, root)
    ensures forall k :: 0 <= k < |topo| ==> topo[k] <= root
  {
    assert forall k :: 0 <= k < |topo| ==> topo[k] in Reachable(g, root);
  }

  /** A reachable node above topo[i] that is not listed after it does not use it. */
  lemma UsersListedLater(g: Graph, root: nat, topo: seq<nat>, i: nat)
    requires WellFormed(g) && root < |g| && TopoOrdered(g, topo)
    requires forall x :: x in topo <==> x in Reachable(g, root)
    requires i < |topo| && topo[i] < root
    ensures forall p :: topo[i] < p <= root && (p in Above(topo[i + 1..], topo[i])) != (p in Reachable(g, root))
              ==> topo[i] !in Children(g[p].op)
  {
    var q, rest, r := topo[i], topo[i + 1..], Reachable(g, root);
    forall p | q < p <= root && (p in Above(rest, q)) != (p in r)
      ensures q !in Children(g[p].op)
    {
      assert p in r && p !in rest;
      var k :| 0 <= k < |topo| && topo[k] == p;
      assert k < i;
    }
  }

  /** When the sweep reaches topo[i], every node that uses it has already
      pushed, so its gradient is final. */
  lemma Ready(g: Graph, root: nat, topo: seq<nat>, i: nat)
    requires WellFormed(g) && root < |g| && TopoOrdered(g, topo)
    requires forall x :: x in topo <==> x in Reachable(g, root)
    requires i < |topo|
    ensures forall k :: 0 <= k < |topo| ==> topo[k] <= root
    ensures Base(g, root, topo[i]) + SweepSum(g, root, topo[i + 1..], topo[i]) == Adjoint(g, root, topo[i])
  {
    ListedBelowRoot(g, root, topo);
    var q, rest := topo[i], topo[i + 1..];
    assert Distinct(rest);
    SweepAsInflow(g, root, rest, q);
    if q < root {
      ReadyBelow(g, root, topo, i);
    }
  }

  lemma ReadyBelow(g: Graph, root: nat, topo: seq<nat>, i: nat)
    requires WellFormed(g) && root < |g| && TopoOrdered(g, topo)
    requires forall x :: x in topo <==> x in Reachable(g, root)
    requires i < |topo| && topo[i] < root
    ensures g[topo[i]].grad + Inflow(g, root, Above(topo[i + 1..], topo[i]), topo[i], topo[i] + 1)
         == Adjoint(g, root, topo[i])
  {
    UsersListedLater(g, root, topo, i);
    InflowAgree(g, root, Above(topo[i + 1..], topo[i]), Reachable(g, root), topo[i], topo[i] + 1);
  }

  /** After the sweep over the whole list, each node holds its reference
      gradient. */
  lemma Finished(g: Graph, root: nat, topo: seq<nat>, x: nat)
    requires WellFormed(g) && root < |g| && TopoOrdered(g, topo)
    requires forall y :: y in topo <==> y in Reachable(g, root)
    requires x < |g|
    ensures forall k :: 0 <= k < |topo| ==> topo[k] <= root
    ensures x <= root ==> Base(g, root, x) + SweepSum(g, root, topo, x) == Adjoint(g, root, x)
    ensures x !in Reachable(g, root) ==> Base(g, root, x) + SweepSum(g, root, topo, x) == g[x].grad
  {
    var r := Reachable(g, root);
    ListedBelowRoot(g, root, topo);
    if x !in r {
      ReachableClosedUnder(g, root);
      assert forall k :: 0 <= k < |topo| ==> topo[k] in r;
      SweepZero(g, root, topo, x);
    }
    if x <= root {
      SweepAsInflow(g, root, topo, x);
      if x < root {
        InflowAgree(g, root, Above(topo, x), r, x, x + 1);
      }
    }
  }

  /** When p is the only node above x, up to the root, that uses x, and the
      root reaches p, x's reference gradient is its prior gradient plus what
      p alone pushes into it. */
  lemma SoleUser(g: Graph, root: nat, x: nat, p: nat)
    requires WellFormed(g) && x < p <= root < |g|
    requires p in Reachable(g, root)
    requires forall q :: x < q <= root && q != p ==> x !in Children(g[q].op)
    ensures Adjoint(g, root, x) == g[x].grad + Push(g, p, Adjoint(g, root, p), x)
  {
    var r := Reachable(g, root);
    InflowAgree(g, root, r, {p}, x, x + 1);
    InflowEmpty(g, root, x, x + 1);
    InflowInsert(g, root, {}, p, x, x + 1);
    assert {} + {p} == {p};
  }

  /** The chain rule through a sole user that is a sum with x as one of two
      distinct operands: x gains p's whole gradient. */
  lemma SoleSumUser(g: Graph, root: nat, x: nat, p: nat)
    requires WellFormed(g) && x < p <= root < |g|
    requires p in Reachable(g, root)
    requires forall q :: x < q <= root && q != p ==> x !in Children(g[q].op)
    requires g[p].op.AddOp? && g[p].op.l != g[p].op.r && x in Children(g[p].op)
    ensures Adjoint(g, root, x) == g[x].grad + Adjoint(g, root, p)
  {
    SoleUser(g, root, x, p);
    PushAdd(g, p, Adjoint(g, root, p), x);
  }

  /** The chain rule through a sole user that is a product of x and a
      different operand, on either side: x gains p's gradient times the
      other operand's data. */
  lemma SoleMulUser(g: Graph, root: nat, x: nat, p: nat)
    requires WellFormed(g) && x < p <= root < |g|
    requires p in Reachable(g, root)
    requires forall q :: x < q <= root && q != p ==> x !in Children(g[q].op)
    requires g[p].op.MulOp? && g[p].op.l != g[p].op.r && x in Children(g[p].op)
    ensures g[p].op.l == x ==> Adjoint(g, root, x) == g[x].grad + Adjoint(g, root, p) * g[g[p].op.r].data
    ensures g[p].op.r == x ==> Adjoint(g, root, x) == g[x].grad + Adjoint(g, root, p) * g[g[p].op.l].data
  {
    SoleUser(g, root, x, p);
    PushMul(g, p, Adjoint(g, root, p), x);
  }

  /** The chain rule through a sole user tanh(x) holding y: x gains p's
      gradient times 1 - y*y. */
  lemma SoleTanhUser(g: Graph, root: nat, x: nat, p: nat)
    requires WellFormed(g) && x < p <= root < |g|
    requires p in Reachable(g, root)
    requires forall q :: x < q <= root && q != p ==> x !in Children(g[q].op)
    requires g[p].op == TanhOp(x)
    ensures Adjoint(g, root, x) == g[x].grad + Adjoint(g, root, p) * (1.0 - g[p].data * g[p].data)
  {
    SoleUser(g, root, x, p);
    PushTanh(g, p, Adjoint(g, root, p), x);
  }

  /** x starts at gradient 0 and its sole user p, reachable or not, is a sum
      of two distinct operands. */
  predicate SumLink(g: Graph, root: nat, x: nat, p: nat)
    requires WellFormed(g) && root < |g|
  {
    && x < p <= root && g[x].grad == 0.0
    && g[p].op.AddOp? && g[p].op.l != g[p].op.r && x in Children(g[p].op)
    && forall q :: x < q <= root && q != p ==> x !in Children(g[q].op)
  }

  /** A chain of sums ending at the root, each node the sole user of the one
      before it: every node of the chain is reachable and receives 1. */
  lemma {:induction false} SumChain(g: Graph, root: nat, xs: seq<nat>, j: nat)
    requires WellFormed(g) && root < |g| && 0 < |xs| && xs[|xs| - 1] == root
    requires forall i :: 0 <= i < |xs| - 1 ==> SumLink(g, root, xs[i], xs[i + 1])
    requires j < |xs|
    ensures xs[j] in Reachable(g, root) && Adjoint(g, root, xs[j]) == 1.0
    decreases |xs| - j
  {
    if j < |xs| - 1 {
      SumChain(g, root, xs, j + 1);
      assert SumLink(g, root, xs[j], xs[j + 1]);
      ReachableStep(g, root, xs[j + 1], xs[j]);
      SoleSumUser(g, root, xs[j], xs[j + 1]);
    }
  }

  /** The sweep's invariant: data and operands as in g, and each gradient
      is its starting value plus what the entries topo[i..] have pushed. */
  predicate Swept(g: Graph, root: nat, topo: seq<nat>, i: nat, g': Graph)
    requires WellFormed(g) && root < |g| && i <= |topo|
    requires forall k :: 0 <= k < |topo| ==> topo[k] <= root
  {
    && |g'| == |g| && WellFormed(g')
    && (forall x :: 0 <= x < |g| ==> g'[x].data == g[x].data && g'[x].op == g[x].op)
    && (forall x :: 0 <= x < |g| ==> g'[x].grad == Base(g, root, x) + SweepSum(g, root, topo[i..], x))
  }

  lemma SweepSumCons(g: Graph, root: nat, topo: seq<nat>, i: nat, x: nat)
    requires WellFormed(g) && root < |g| && i < |topo|
    requires forall k :: 0 <= k < |topo| ==> topo[k] <= root
    ensures SweepSum(g, root, topo[i..], x)
         == Push(g, topo[i], Adjoint(g, root, topo[i]), x) + SweepSum(g, root, topo[i + 1..], x)
  {
    assert topo[i..][1..] == topo[i + 1..];
  }

  lemma SweepStep(g: Graph, root: nat, topo: seq<nat>, i: nat, g': Graph)
    requires WellFormed(g) && root < |g| && TopoOrdered(g, topo)
    requires forall x :: x in topo <==> x in Reachable(g, root)
    requires 0 < i <= |topo|
    requires forall k :: 0 <= k < |topo| ==> topo[k] <= root
    requires Swept(g, root, topo, i, g')
    ensures topo[i - 1] < |g'|
    ensures Swept(g, root, topo, i - 1, Propagate(g', topo[i - 1]))
  {
    var q := topo[i - 1];
    Ready(g, root, topo, i - 1);
    var g2 := Propagate(g', q);
    forall x | 0 <= x < |g|
      ensures g2[x].grad == Base(g, root, x) + SweepSum(g, root, topo[i - 1..], x)
    {
      PushFrame(g, g', q, g'[q].grad, x);
      SweepSumCons(g, root, topo, i - 1, x);
    }
  }

  /** Before the sweep: only the root's gradient is set, to 1. */
  lemma SweptStart(g: Graph, root: nat, topo: seq<nat>)
    requires WellFormed(g) && root < |g|
    requires forall k :: 0 <= k < |topo| ==> topo[k] <= root
    ensures Swept(g, root, topo, |topo|, g[root := g[root].(grad := 1.0)])
  {
    assert topo[|topo|..] == [];
  }

  /** After the sweep over the whole list: every node at or below the root
      holds its reference gradient and unreached nodes are as they were. */
  lemma SweptDone(g: Graph, root: nat, topo: seq<nat>, g': Graph)
    requires WellFormed(g) && root < |g| && TopoOrdered(g, topo)
    requires forall x :: x in topo <==> x in Reachable(g, root)
    requires forall k :: 0 <= k < |topo| ==> topo[k] <= root
    requires Swept(g, root, topo, 0, g')
    ensures |g'| == |g| && WellFormed(g')
    ensures forall x :: 0 <= x < |g| ==> g'[x].data == g[x].data && g'[x].op == g[x].op
    ensures forall x :: 0 <= x <= root ==> g'[x].grad == Adjoint(g, root, x)
    ensures forall x :: 0 <= x < |g| && x !in Reachable(g, root) ==> g'[x] == g[x]
  {
    assert topo[0..] == topo;
    forall x | 0 <= x < |g|
      ensures x <= root ==> g'[x].grad == Adjoint(g, root, x)
      ensures x !in Reachable(g, root) ==> g'[x] == g[x]
    {
      Finished(g, root, topo, x);
    }
  }

  /** Backward: build the topological list, set the root's gradient to 1,
      then apply each node's local rule from the root down. Every node at or
      below the root ends at its reference gradient; nothing but gradients
      changes, and nodes the root does not reach are untouched. */
  method Backward(g: Graph, root: nat) returns (g': Graph)
    requires WellFormed(g) && root < |g|
    ensures |g'| == |g| && WellFormed(g')
    ensures forall x :: 0 <= x < |g| ==> g'[x].data == g[x].data && g'[x].op == g[x].op
    ensures g'[root].grad == 1.0
    ensures forall x :: 0 <= x <= root ==> g'[x].grad == Adjoint(g, root, x)
    ensures forall x :: 0 <= x < |g| && x !in Reachable(g, root) ==> g'[x] == g[x]
  {
    var topo := BuildTopo(g, root);
    ListedBelowRoot(g, root, topo);
    g' := g[root := g[root].(grad := 1.0)];
    SweptStart(g, root, topo);
    var i := |topo|;
    while i > 0
      invariant 0 <= i <= |topo|
      invariant Swept(g, root, topo, i, g')
    {
      SweepStep(g, root, topo, i, g');
      g' := Propagate(g', topo[i - 1]);
      i := i - 1;
    }
    SweptDone(g, root, topo, g');
    assert Adjoint(g, root, root) == 1.0;
  }
}
