/** Directed graphs of references and their execution order (keeper_sdk/core/graph.py).
    An edge (a, b) means that a depends on b.  `TopologicalSort` stands for the library
    sort behind `execution_order`: it succeeds exactly on acyclic graphs. */
module Graph {
  import opened Json

  type Edge = (string, string)

  ghost predicate IsPath(p: seq<string>, edges: set<Edge>) {
    |p| > 0 && forall i | 0 <= i < |p| - 1 :: (p[i], p[i + 1]) in edges
  }

  ghost predicate IsCycle(p: seq<string>, edges: set<Edge>) {
    |p| > 1 && IsPath(p, edges) && p[0] == p[|p| - 1]
  }

  ghost predicate Acyclic(edges: set<Edge>) {
    forall p :: !IsCycle(p, edges)
  }

  ghost predicate Distinct<T>(xs: seq<T>) {
    forall i, j | 0 <= i < j < |xs| :: xs[i] != xs[j]
  }

  /** Every node once, and every dependency before its dependents. */
  ghost predicate Topological(order: seq<string>, nodes: set<string>, edges: set<Edge>) {
    && Distinct(order)
    && (forall n :: n in order <==> n in nodes)
    && (forall i, j | 0 <= i < |order| && 0 <= j < |order| && (order[i], order[j]) in edges :: j < i)
  }

  ghost predicate Within(edges: set<Edge>, nodes: set<string>) {
    forall e | e in edges :: e.0 in nodes && e.1 in nodes
  }

  // -------------------------------------------------------------------- cycles and order

  lemma {:induction false} PathDescends(p: seq<string>, order: seq<string>, nodes: set<string>, edges: set<Edge>, i: nat, j: nat)
    requires Topological(order, nodes, edges) && Within(edges, nodes) && IsPath(p, edges) && |p| > 1
    requires i < |order| && j < |order| && order[i] == p[0] && order[j] == p[|p| - 1]
    ensures j < i
  {
    assert (p[0], p[1]) in edges;
    if |p| > 2 {
      var k :| 0 <= k < |order| && order[k] == p[1];
      var rest := p[1..];
      assert forall x | 0 <= x < |rest| :: rest[x] == p[x + 1];
      PathDescends(rest, order, nodes, edges, k, j);
    }
  }

  lemma OrderMeansAcyclic(order: seq<string>, nodes: set<string>, edges: set<Edge>)
    requires Topological(order, nodes, edges) && Within(edges, nodes)
    ensures Acyclic(edges)
  {
    forall p ensures !IsCycle(p, edges) {
      if IsCycle(p, edges) {
        assert (p[0], p[1]) in edges;
        var i :| 0 <= i < |order| && order[i] == p[0];
        PathDescends(p, order, nodes, edges, i, i);
      }
    }
  }

  ghost predicate GoesOn(n: string, rest: set<string>, edges: set<Edge>) {
    exists b :: b in rest && (n, b) in edges
  }

  lemma PathExtends(p: seq<string>, b: string, edges: set<Edge>)
    requires IsPath(p, edges) && Distinct(p) && (p[|p| - 1], b) in edges
    ensures b !in p ==> IsPath(p + [b], edges) && Distinct(p + [b])
  {}

  lemma PathCloses(p: seq<string>, i: nat, edges: set<Edge>)
    requires IsPath(p, edges) && i < |p| && (p[|p| - 1], p[i]) in edges
    ensures IsCycle(p[i..] + [p[i]], edges)
  {}

  /** A walk that can always go on inside a finite set runs into itself. */
  lemma {:induction false} WalkCloses(p: seq<string>, rest: set<string>, left: set<string>, edges: set<Edge>) returns (cycle: seq<string>)
    requires IsPath(p, edges) && Distinct(p) && forall n | n in p :: n in rest
    requires forall n | n in rest :: GoesOn(n, rest, edges)
    requires forall n | n in rest :: n in p || n in left
    ensures IsCycle(cycle, edges)
    decreases left
  {
    var last := p[|p| - 1];
    assert last in p && GoesOn(last, rest, edges);
    var b :| b in rest && (last, b) in edges;
    if i :| 0 <= i < |p| && p[i] == b {
      cycle := p[i..] + [p[i]];
      PathCloses(p, i, edges);
    } else {
      PathExtends(p, b, edges);
      cycle := WalkCloses(p + [b], rest, left - {b}, edges);
    }
  }

  /** The nodes of `rest` that depend on nothing in `rest`. */
  function Ready(rest: set<string>, edges: set<Edge>): set<string> {
    set n | n in rest && forall e | e in edges :: e.0 == n ==> e.1 !in rest
  }

  lemma StuckMeansCycle(rest: set<string>, edges: set<Edge>)
    requires rest != {} && Ready(rest, edges) == {}
    ensures !Acyclic(edges)
  {
    forall n | n in rest ensures GoesOn(n, rest, edges) {
      assert n !in Ready(rest, edges);
      var e :| e in edges && e.0 == n && e.1 in rest;
      assert e == (n, e.1);
    }
    var n :| n in rest;
    var cycle := WalkCloses([n], rest, rest, edges);
  }

  /** Kahn's algorithm: take nodes whose dependencies are all taken. */
  method TopologicalSort(nodes: set<string>, edges: set<Edge>) returns (order: Option<seq<string>>)
    requires Within(edges, nodes)
    ensures order.Some? <==> Acyclic(edges)
    ensures order.Some? ==> Topological(order.value, nodes, edges)
  {
    var done: seq<string> := [];
    var rest := nodes;
    while rest != {}
      invariant rest <= nodes && Distinct(done)
      invariant forall n :: n in done <==> n in nodes && n !in rest
      invariant forall i, j | 0 <= i < |done| && 0 <= j < |done| && (done[i], done[j]) in edges :: j < i
      invariant forall i, b | 0 <= i < |done| && b in rest :: (done[i], b) !in edges
      decreases rest
    {
      var ready := Ready(rest, edges);
      if ready == {} {
        StuckMeansCycle(rest, edges);
        return None;
      }
      var n :| n in ready;
      assert forall b | b in rest :: (n, b) !in edges;
      assert n !in done;
      done := done + [n];
      rest := rest - {n};
    }
    OrderMeansAcyclic(done, nodes, edges);
    return Some(done);
  }

  /** The mutable graph of the library. */
  class DiGraph {
    var nodes: set<string>
    var edges: set<Edge>

    constructor ()
      ensures nodes == {} && edges == {}
    {
      nodes, edges := {}, {};
    }

    method AddNode(n: string)
      modifies this
      ensures nodes == old(nodes) + {n} && edges == old(edges)
    {
      nodes := nodes + {n};
    }

    /** Adding an edge adds its ends. */
    method AddEdge(a: string, b: string)
      modifies this
      ensures nodes == old(nodes) + {a, b} && edges == old(edges) + {(a, b)}
    {
      nodes := nodes + {a, b};
      edges := edges + {(a, b)};
    }
  }
}
