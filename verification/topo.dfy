/** The depth-first post-order build of `Backward` (nn/value.go:82-96):
    which nodes a root reaches, and the order in which they are listed. */
module Topo {
  import opened Value

  /** The nodes reachable from i through operands, i included. */
  function Reachable(g: Graph, i: nat): (r: set<nat>)
    requires WellFormed(g) && i < |g|
    ensures i in r
    ensures forall x :: x in r ==> x <= i
    decreases i
  {
    {i} + match g[i].op
      case NoOp => {}
      case AddOp(l, r) => Reachable(g, l) + Reachable(g, r)
      case MulOp(l, r) => Reachable(g, l) + Reachable(g, r)
      case TanhOp(a) => Reachable(g, a)
  }

  /** The union of Reachable over a list of nodes. */
  function ReachableAll(g: Graph, cs: seq<nat>): (r: set<nat>)
    requires WellFormed(g) && IndicesIn(g, cs)
    ensures forall k :: 0 <= k < |cs| ==> Reachable(g, cs[k]) <= r
  {
    if |cs| == 0 then {} else ReachableAll(g, cs[..|cs| - 1]) + Reachable(g, cs[|cs| - 1])
  }

  /** Everything reached from nodes below b lies below b. */
  lemma {:induction false} ReachableAllBelow(g: Graph, cs: seq<nat>, b: nat)
    requires WellFormed(g) && IndicesIn(g, cs)
    requires forall k :: 0 <= k < |cs| ==> cs[k] < b
    ensures forall x :: x in ReachableAll(g, cs) ==> x < b
  {
    if |cs| > 0 {
      ReachableAllBelow(g, cs[..|cs| - 1], b);
    }
  }

  lemma ReachableAllPair(g: Graph, l: nat, r: nat)
    requires WellFormed(g) && l < |g| && r < |g|
    ensures ReachableAll(g, [l]) == Reachable(g, l)
    ensures ReachableAll(g, [l, r]) == Reachable(g, l) + Reachable(g, r)
  {
    assert [l][..0] == [];
    assert [l, r][..1] == [l];
  }

  lemma ReachableUnfold(g: Graph, i: nat)
    requires WellFormed(g) && i < |g|
    ensures IndicesIn(g, Children(g[i].op))
    ensures Reachable(g, i) == {i} + ReachableAll(g, Children(g[i].op))
  {
    match g[i].op
    case NoOp =>
    case AddOp(l, r) => ReachableAllPair(g, l, r);
    case MulOp(l, r) => ReachableAllPair(g, l, r);
    case TanhOp(a) => ReachableAllPair(g, a, a);
  }

  /** An operand of a reachable node is reachable. */
  lemma {:induction false} ReachableStep(g: Graph, root: nat, p: nat, c: nat)
    requires WellFormed(g) && root < |g|
    requires p in Reachable(g, root) && c in Children(g[p].op)
    ensures c in Reachable(g, root)
    decreases root
  {
    if p != root {
      match g[root].op
      case NoOp =>
      case AddOp(l, r) =>
        if p in Reachable(g, l) { ReachableStep(g, l, p, c); } else { ReachableStep(g, r, p, c); }
      case MulOp(l, r) =>
        if p in Reachable(g, l) { ReachableStep(g, l, p, c); } else { ReachableStep(g, r, p, c); }
      case TanhOp(a) => ReachableStep(g, a, p, c);
    }
  }

  lemma ReachableClosedUnder(g: Graph, root: nat)
    requires WellFormed(g) && root < |g|
    ensures forall p, c :: p in Reachable(g, root) && c in Children(g[p].op) ==> c in Reachable(g, root)
  {
    forall p, c | p in Reachable(g, root) && c in Children(g[p].op)
      ensures c in Reachable(g, root)
    {
      ReachableStep(g, root, p, c);
    }
  }

  /** The entries are distinct. */
  predicate Distinct(xs: seq<nat>) {
    forall k, l :: 0 <= k < l < |xs| ==> xs[k] != xs[l]
  }

  /** A topological list of arena nodes: distinct, and every operand of an
      entry is listed before that entry. */
  predicate TopoOrdered(g: Graph, topo: seq<nat>) {
    && IndicesIn(g, topo)
    && Distinct(topo)
    && forall k :: 0 <= k < |topo| ==> forall c :: c in Children(g[topo[k]].op) ==> c in topo[..k]
  }

  /** A topological list holds everything its entries reach. */
  lemma {:induction false} ReachableClosed(g: Graph, topo: seq<nat>, v: nat)
    requires WellFormed(g) && TopoOrdered(g, topo) && v in topo
    ensures forall x :: x in Reachable(g, v) ==> x in topo
    decreases v
  {
    var k :| 0 <= k < |topo| && topo[k] == v;
    assert v < |g|;
    forall c | c in Children(g[v].op)
      ensures forall x :: x in Reachable(g, c) ==> x in topo
    {
      assert c in topo[..k];
      ChildBelow(g, v, c);
      ReachableClosed(g, topo, c);
    }
    ReachableUnfold(g, v);
  }

  lemma AppendOrdered(g: Graph, topo: seq<nat>, v: nat)
    requires WellFormed(g) && TopoOrdered(g, topo) && v < |g| && v !in topo
    requires forall c :: c in Children(g[v].op) ==> c in topo
    ensures TopoOrdered(g, topo + [v])
  {
    var t := topo + [v];
    assert t[..|topo|] == topo;
    forall k | 0 <= k < |t|
      ensures forall c :: c in Children(g[t[k]].op) ==> c in t[..k]
    {
      if k < |topo| {
        assert t[..k] == topo[..k];
      }
    }
  }

  lemma ReachableAllSnoc(g: Graph, cs: seq<nat>, j: nat)
    requires WellFormed(g) && IndicesIn(g, cs) && j < |cs|
    ensures ReachableAll(g, cs[..j + 1]) == ReachableAll(g, cs[..j]) + Reachable(g, cs[j])
  {
    assert cs[..j + 1][..j] == cs[..j];
  }

  /** What v's first j operands reach: the nodes listed while buildTopo(v)
      has gone through j of its operands. */
  function OperandsReach(g: Graph, v: nat, j: nat): (r: set<nat>)
    requires WellFormed(g) && v < |g| && j <= |Children(g[v].op)|
    ensures forall x :: x in r ==> x < v
  {
    ReachableUnfold(g, v);
    ReachableAllBelow(g, Children(g[v].op)[..j], v);
    ReachableAll(g, Children(g[v].op)[..j])
  }

  /** Before visiting operand j of v: the operand lies below v and below
      every node visited but not yet listed, so the recursive visit may start. */
  lemma VisitNext(g: Graph, v: nat, visited: set<nat>, topo: seq<nat>, j: nat, vis: set<nat>, t: seq<nat>)
    requires WellFormed(g) && v < |g| && j < |Children(g[v].op)|
    requires forall x :: x in topo ==> x in visited
    requires forall x :: x in visited && x !in topo ==> v < x
    requires forall x :: x in t <==> x in topo || x in OperandsReach(g, v, j)
    requires vis == visited + {v} + OperandsReach(g, v, j)
    ensures Children(g[v].op)[j] < v
    ensures forall x :: x in t ==> x in vis
    ensures forall x :: x in vis && x !in t ==> Children(g[v].op)[j] < x
  {
    var cs := Children(g[v].op);
    ChildBelow(g, v, cs[j]);
  }

  /** After visiting operand j of v: the list and the visited set have grown
      by what that operand reaches, and v is still not listed. */
  lemma VisitedNext(g: Graph, v: nat, visited: set<nat>, topo: seq<nat>, j: nat,
                    vis: set<nat>, t: seq<nat>, vis': set<nat>, t': seq<nat>)
    requires WellFormed(g) && v < |g| && j < |Children(g[v].op)| && v !in t
    requires forall x :: x in t <==> x in topo || x in OperandsReach(g, v, j)
    requires vis == visited + {v} + OperandsReach(g, v, j)
    requires forall x :: x in t' <==> x in t || x in Reachable(g, Children(g[v].op)[j])
    requires vis' == vis + Reachable(g, Children(g[v].op)[j])
    ensures forall x :: x in t' <==> x in topo || x in OperandsReach(g, v, j + 1)
    ensures vis' == visited + {v} + OperandsReach(g, v, j + 1)
    ensures v !in t'
  {
    var cs := Children(g[v].op);
    ChildBelow(g, v, cs[j]);
    ReachableAllSnoc(g, cs, j);
  }

  /** buildTopo(v): if v is not yet visited, mark it, visit its operands in
      order, then append it. `visited` is keyed by node identity. Nodes that are
      visited but not yet listed are the ones whose visit is still in
      progress; they all lie above v. */
  method Visit(g: Graph, v: nat, visited: set<nat>, topo: seq<nat>)
    returns (visited': set<nat>, topo': seq<nat>)
    requires WellFormed(g) && v < |g|
    requires TopoOrdered(g, topo)
    requires forall x :: x in topo ==> x in visited
    requires forall x :: x in visited && x !in topo ==> v < x
    ensures TopoOrdered(g, topo')
    ensures topo <= topo'
    ensures forall x :: x in topo' <==> x in topo || x in Reachable(g, v)
    ensures visited' == visited + Reachable(g, v)
    ensures v !in visited ==> topo'[|topo'| - 1] == v
    decreases v, 1, 0
  {
    if v in visited {
      ReachableClosed(g, topo, v);
      return visited, topo;
    }
    assert Children(g[v].op)[..0] == [];
    visited', topo' := VisitOperands(g, v, visited, topo, 0, visited + {v}, topo);
    VisitFinish(g, v, visited, topo, visited', topo');
    topo' := topo' + [v];
  }

  /** The loop of buildTopo over v's operands, from operand j on: each
      operand is visited in turn, and v itself stays unlisted. */
  method VisitOperands(g: Graph, v: nat, visited: set<nat>, topo: seq<nat>, j: nat, vis: set<nat>, t: seq<nat>)
    returns (visited': set<nat>, topo': seq<nat>)
    requires WellFormed(g) && v < |g| && j <= |Children(g[v].op)|
    requires forall x :: x in topo ==> x in visited
    requires forall x :: x in visited && x !in topo ==> v < x
    requires TopoOrdered(g, t) && topo <= t && v !in t
    requires forall x :: x in t <==> x in topo || x in OperandsReach(g, v, j)
    requires vis == visited + {v} + OperandsReach(g, v, j)
    ensures TopoOrdered(g, topo') && topo <= topo' && v !in topo'
    ensures forall x :: x in topo' <==> x in topo || x in OperandsReach(g, v, |Children(g[v].op)|)
    ensures visited' == visited + {v} + OperandsReach(g, v, |Children(g[v].op)|)
    decreases v, 0, |Children(g[v].op)| - j
  {
    var cs := Children(g[v].op);
    if j == |cs| {
      return vis, t;
    }
    VisitNext(g, v, visited, topo, j, vis, t);
    var vis1, t1 := Visit(g, cs[j], vis, t);
    VisitedNext(g, v, visited, topo, j, vis, t, vis1, t1);
    visited', topo' := VisitOperands(g, v, visited, topo, j + 1, vis1, t1);
  }

  /** Once every operand is visited, appending v completes v's visit. */
  lemma VisitFinish(g: Graph, v: nat, visited: set<nat>, topo: seq<nat>, vis: set<nat>, t: seq<nat>)
    requires WellFormed(g) && v < |g| && TopoOrdered(g, t) && topo <= t && v !in t
    requires forall x :: x in t <==> x in topo || x in OperandsReach(g, v, |Children(g[v].op)|)
    requires vis == visited + {v} + OperandsReach(g, v, |Children(g[v].op)|)
    ensures TopoOrdered(g, t + [v]) && topo <= t + [v]
    ensures forall x :: x in t + [v] <==> x in topo || x in Reachable(g, v)
    ensures vis == visited + Reachable(g, v)
  {
    ReachableUnfold(g, v);
    var cs := Children(g[v].op);
    assert cs[..|cs|] == cs;
    forall c | c in cs ensures c in t {
      assert c in Reachable(g, c);
    }
    AppendOrdered(g, t, v);
  }

  /** The list built by Backward before its sweep: every node reachable from
      the root exactly once and nothing else, operands before users, root last. */
  method BuildTopo(g: Graph, root: nat) returns (topo: seq<nat>)
    requires WellFormed(g) && root < |g|
    ensures TopoOrdered(g, topo)
    ensures forall x :: x in topo <==> x in Reachable(g, root)
    ensures |topo| > 0 && topo[|topo| - 1] == root
  {
    var visited;
    visited, topo := Visit(g, root, {}, []);
  }
}
