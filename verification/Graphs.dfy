/** The adjacency derived from a plan's edges (engine/validate/validate.go, `buildAdjacency`;
    the same lists are rebuilt at engine/scheduler/scheduler.go:92-102), and walks over it.
    A node is named by its position in the plan, which the unique ids of a valid plan allow. */
module Graphs {
  import opened Lists
  import opened Plans

  datatype Graph = Graph(nodes: seq<Node>, preds: seq<seq<nat>>, succs: seq<seq<nat>>) {
    function N(): nat { |nodes| }

    predicate IsAny(v: nat)
      requires v < N()
    {
      nodes[v].join.AnyOf?
    }

    predicate IsDestructive(v: nat)
      requires v < N()
    {
      nodes[v].sideEffect.Destructive?
    }
  }

  function Mult(s: seq<nat>, x: nat): nat {
    multiset(s)[x]
  }

  /** The two lists describe the same multiset of edges (an edge may be repeated). */
  ghost predicate WellFormed(g: Graph) {
    && |g.preds| == |g.succs| == |g.nodes|
    && UniqueIds(g.nodes)
    && (forall v, u :: 0 <= v < g.N() && u in g.preds[v] ==> u < g.N())
    && (forall v, u :: 0 <= v < g.N() && u in g.succs[v] ==> u < g.N())
    && (forall u, v :: 0 <= u < g.N() && 0 <= v < g.N() ==> Mult(g.preds[v], u) == Mult(g.succs[u], v))
  }

  lemma EdgeBothWays(g: Graph, u: nat, v: nat)
    requires WellFormed(g) && u < g.N() && v < g.N()
    ensures u in g.preds[v] <==> v in g.succs[u]
  {
    assert Mult(g.preds[v], u) == Mult(g.succs[u], v);
  }

  lemma EdgesBothWays(g: Graph)
    requires WellFormed(g)
    ensures forall u, v :: 0 <= u < g.N() && 0 <= v < g.N() ==> (u in g.preds[v] <==> v in g.succs[u])
  {
    forall u, v | 0 <= u < g.N() && 0 <= v < g.N()
      ensures u in g.preds[v] <==> v in g.succs[u]
    {
      EdgeBothWays(g, u, v);
    }
  }

  // ---- building it ---------------------------------------------------------

  function Position(nodes: seq<Node>, id: string): (i: nat)
    requires HasId(nodes, id)
    ensures i < |nodes| && nodes[i].id == id
  {
    if nodes[0].id == id then 0
    else
      assert HasId(nodes[1..], id) by {
        var j :| 0 <= j < |nodes| && nodes[j].id == id;
        assert nodes[1..][j - 1].id == id;
      }
      1 + Position(nodes[1..], id)
  }

  /** The end points of edge k, as node positions. */
  function Ends(p: Plan, k: nat): (e: (nat, nat))
    requires BasicValid(p) && k < |p.edges|
    ensures e.0 < |p.nodes| && e.1 < |p.nodes| && e.0 != e.1
    ensures p.nodes[e.0].id == p.edges[k].from && p.nodes[e.1].id == p.edges[k].to
  {
    assert EdgeOk(p.nodes, p.edges[k]);
    (Position(p.nodes, p.edges[k].from), Position(p.nodes, p.edges[k].to))
  }

  /** The plan's edges as pairs of positions. */
  function EdgePairs(p: Plan): (es: seq<(nat, nat)>)
    requires BasicValid(p)
    ensures |es| == |p.edges|
    ensures forall k :: 0 <= k < |es| ==>
      && es[k].0 < |p.nodes| && es[k].1 < |p.nodes| && es[k].0 != es[k].1
      && p.nodes[es[k].0].id == p.edges[k].from && p.nodes[es[k].1].id == p.edges[k].to
  {
    seq(|p.edges|, k requires 0 <= k < |p.edges| => Ends(p, k))
  }

  /** The sources of the edges into v, and the targets of those out of u, in edge order. */
  function PredList(es: seq<(nat, nat)>, v: nat): seq<nat> {
    if |es| == 0 then []
    else
      var e := es[|es| - 1];
      if e.1 == v then PredList(es[..|es| - 1], v) + [e.0] else PredList(es[..|es| - 1], v)
  }

  function SuccList(es: seq<(nat, nat)>, u: nat): seq<nat> {
    if |es| == 0 then []
    else
      var e := es[|es| - 1];
      if e.0 == u then SuccList(es[..|es| - 1], u) + [e.1] else SuccList(es[..|es| - 1], u)
  }

  /** Either list repeats a neighbour as often as the plan repeats the edge. */
  lemma {:induction false} ListsCountEdges(es: seq<(nat, nat)>, u: nat, v: nat)
    ensures Mult(PredList(es, v), u) == multiset(es)[(u, v)] == Mult(SuccList(es, u), v)
  {
    if |es| > 0 {
      var rest, e := es[..|es| - 1], es[|es| - 1];
      ListsCountEdges(rest, u, v);
      assert es == rest + [e];
      assert multiset(es) == multiset(rest) + multiset{e};
    }
  }

  lemma {:induction false} ListsHoldNeighbours(es: seq<(nat, nat)>, v: nat)
    ensures forall u :: u in PredList(es, v) ==> (u, v) in es
    ensures forall u :: u in SuccList(es, v) ==> (v, u) in es
  {
    if |es| > 0 {
      ListsHoldNeighbours(es[..|es| - 1], v);
    }
  }

  /** The lists keep the order of the edges: their elements are the ends of the edges at increasing
      positions, and no such edge is missing. */
  lemma {:induction false} PredsInOrder(es: seq<(nat, nat)>, v: nat) returns (ks: seq<nat>)
    ensures Increasing(ks) && forall k: nat :: k in ks <==> k < |es| && es[k].1 == v
    ensures |PredList(es, v)| == |ks|
    ensures forall i :: 0 <= i < |ks| ==> ks[i] < |es| && PredList(es, v)[i] == es[ks[i]].0
  {
    if |es| == 0 {
      ks := [];
    } else {
      var n: nat := |es| - 1;
      ks := PredsInOrder(es[..n], v);
      if es[n].1 == v {
        IncreasingLast(ks, n);
        ks := ks + [n];
      }
    }
  }

  lemma {:induction false} SuccsInOrder(es: seq<(nat, nat)>, u: nat) returns (ks: seq<nat>)
    ensures Increasing(ks) && forall k: nat :: k in ks <==> k < |es| && es[k].0 == u
    ensures |SuccList(es, u)| == |ks|
    ensures forall i :: 0 <= i < |ks| ==> ks[i] < |es| && SuccList(es, u)[i] == es[ks[i]].1
  {
    if |es| == 0 {
      ks := [];
    } else {
      var n: nat := |es| - 1;
      ks := SuccsInOrder(es[..n], u);
      if es[n].0 == u {
        IncreasingLast(ks, n);
        ks := ks + [n];
      }
    }
  }

  /** The adjacency of a plan: neighbours in edge order, repeated as often as the edge is. */
  function GraphOf(p: Plan): Graph
    requires BasicValid(p)
  {
    var es := EdgePairs(p);
    Graph(p.nodes, seq(|p.nodes|, v requires 0 <= v < |p.nodes| => PredList(es, v)),
          seq(|p.nodes|, u requires 0 <= u < |p.nodes| => SuccList(es, u)))
  }

  /** In terms of the plan: v's predecessors are the sources of the edges into v, in edge order, and its
      successors the targets of those out of it. */
  lemma NeighboursInEdgeOrder(p: Plan, v: nat) returns (ins: seq<nat>, outs: seq<nat>)
    requires BasicValid(p) && v < |p.nodes|
    ensures Increasing(ins) && forall k: nat :: k in ins <==> k < |p.edges| && p.edges[k].to == p.nodes[v].id
    ensures Increasing(outs) && forall k: nat :: k in outs <==> k < |p.edges| && p.edges[k].from == p.nodes[v].id
    ensures var g := GraphOf(p);
      && g.nodes == p.nodes && |g.preds[v]| == |ins| && |g.succs[v]| == |outs|
      && (forall i :: 0 <= i < |ins| ==>
            ins[i] < |p.edges| && g.preds[v][i] < |p.nodes| && p.nodes[g.preds[v][i]].id == p.edges[ins[i]].from)
      && (forall i :: 0 <= i < |outs| ==>
            outs[i] < |p.edges| && g.succs[v][i] < |p.nodes| && p.nodes[g.succs[v][i]].id == p.edges[outs[i]].to)
  {
    var es := EdgePairs(p);
    ins := PredsInOrder(es, v);
    outs := SuccsInOrder(es, v);
    hide EdgePairs, PredList, SuccList, EdgeOk;
    assert forall k :: 0 <= k < |es| ==> (es[k].1 == v <==> p.edges[k].to == p.nodes[v].id);
    assert forall k :: 0 <= k < |es| ==> (es[k].0 == v <==> p.edges[k].from == p.nodes[v].id);
  }

  lemma GraphOfWellFormed(p: Plan)
    requires BasicValid(p)
    ensures WellFormed(GraphOf(p))
    ensures forall v :: 0 <= v < |p.nodes| ==> v !in GraphOf(p).preds[v]
  {
    var g := GraphOf(p);
    hide Mult, EdgePairs, PredList, SuccList, GraphOf;
    forall u, v | 0 <= u < |p.nodes| && 0 <= v < |p.nodes|
      ensures Mult(g.preds[v], u) == Mult(g.succs[u], v)
    {
      EdgeMultiplicity(p, u, v);
    }
    forall v | 0 <= v < |p.nodes|
      ensures v !in g.preds[v]
      ensures forall u :: u in g.preds[v] || u in g.succs[v] ==> u < |p.nodes|
    {
      NeighboursInPlan(p, v);
    }
    assert |g.preds| == |g.succs| == |g.nodes| && g.nodes == p.nodes by { GraphOfShape(p); }
  }

  lemma GraphOfShape(p: Plan)
    requires BasicValid(p)
    ensures var g := GraphOf(p); |g.preds| == |g.succs| == |g.nodes| && g.nodes == p.nodes
  {
  }

  /** A node lists a neighbour as often as the plan repeats the edge, on either end. */
  lemma EdgeMultiplicity(p: Plan, u: nat, v: nat)
    requires BasicValid(p) && u < |p.nodes| && v < |p.nodes|
    ensures Mult(GraphOf(p).preds[v], u) == multiset(EdgePairs(p))[(u, v)] == Mult(GraphOf(p).succs[u], v)
  {
    hide PredList, SuccList, EdgePairs, Mult;
    ListsCountEdges(EdgePairs(p), u, v);
  }

  lemma NeighboursInPlan(p: Plan, v: nat)
    requires BasicValid(p) && v < |p.nodes|
    ensures forall u :: u in GraphOf(p).preds[v] || u in GraphOf(p).succs[v] ==> u < |p.nodes| && u != v
  {
    hide PredList, SuccList;
    ListsHoldNeighbours(EdgePairs(p), v);
  }

  method BuildAdjacency(p: Plan) returns (g: Graph)
    requires BasicValid(p)
    ensures g == GraphOf(p) && WellFormed(g)
  {
    var preds, succs := FillLists(|p.nodes|, EdgePairs(p));
    g := Graph(p.nodes, preds, succs);
    ListsAreGraph(p, g);
    GraphOfWellFormed(p);
  }

  method FillLists(n: nat, es: seq<(nat, nat)>) returns (preds: seq<seq<nat>>, succs: seq<seq<nat>>)
    requires forall k :: 0 <= k < |es| ==> es[k].0 < n && es[k].1 < n
    ensures |preds| == |succs| == n
    ensures forall v :: 0 <= v < n ==> preds[v] == PredList(es, v)
    ensures forall u :: 0 <= u < n ==> succs[u] == SuccList(es, u)
  {
    preds, succs := seq(n, _ => []), seq(n, _ => []);
    for k := 0 to |es|
      invariant |preds| == |succs| == n
      invariant forall v :: 0 <= v < n ==> preds[v] == PredList(es[..k], v)
      invariant forall u :: 0 <= u < n ==> succs[u] == SuccList(es[..k], u)
    {
      assert es[..k + 1][..k] == es[..k];
      var (a, b) := es[k];
      succs := succs[a := succs[a] + [b]];
      preds := preds[b := preds[b] + [a]];
    }
    assert es[..|es|] == es;
  }

  lemma ListsAreGraph(p: Plan, g: Graph)
    requires BasicValid(p) && g.nodes == p.nodes && |g.preds| == |g.succs| == |p.nodes|
    requires forall v :: 0 <= v < g.N() ==> g.preds[v] == PredList(EdgePairs(p), v)
    requires forall u :: 0 <= u < g.N() ==> g.succs[u] == SuccList(EdgePairs(p), u)
    ensures g == GraphOf(p)
  {
    assert g.preds == GraphOf(p).preds && g.succs == GraphOf(p).succs;
  }

  // ---- walks ---------------------------------------------------------------

  ghost predicate IsWalk(next: seq<seq<nat>>, w: seq<nat>) {
    && |w| >= 1
    && (forall i :: 0 <= i < |w| ==> w[i] < |next|)
    && (forall i :: 0 <= i < |w| - 1 ==> w[i + 1] in next[w[i]])
  }

  ghost predicate WalkFromTo(next: seq<seq<nat>>, w: seq<nat>, u: nat, v: nat) {
    IsWalk(next, w) && w[0] == u && w[|w| - 1] == v
  }

  ghost predicate Reaches(next: seq<seq<nat>>, u: nat, v: nat) {
    exists w :: WalkFromTo(next, w, u, v)
  }

  /** u lies strictly before v: some walk of at least one edge leads from u to v. */
  ghost predicate Before(g: Graph, u: nat, v: nat) {
    exists w :: WalkFromTo(g.succs, w, u, v) && |w| >= 2
  }

  ghost predicate OnCycle(g: Graph, v: nat) {
    Before(g, v, v)
  }

  ghost predicate Acyclic(g: Graph) {
    forall v :: !OnCycle(g, v)
  }

  lemma WalkExtend(next: seq<seq<nat>>, w: seq<nat>, u: nat, v: nat, x: nat)
    requires WalkFromTo(next, w, u, v) && x in next[v] && x < |next|
    ensures WalkFromTo(next, w + [x], u, x)
  {
  }

  lemma ReachSelf(next: seq<seq<nat>>, v: nat)
    requires v < |next|
    ensures Reaches(next, v, v)
  {
    assert WalkFromTo(next, [v], v, v);
  }

  lemma ReachStep(next: seq<seq<nat>>, u: nat, v: nat, x: nat)
    requires Reaches(next, u, v) && v < |next| && x in next[v] && x < |next|
    ensures Reaches(next, u, x)
  {
    var w :| WalkFromTo(next, w, u, v);
    WalkExtend(next, w, u, v, x);
  }

  /** A set that holds u and is closed under `next` holds everything u reaches. */
  lemma {:induction false} ClosedUnderWalk(next: seq<seq<nat>>, seen: seq<bool>, w: seq<nat>)
    requires IsWalk(next, w) && |seen| == |next| && seen[w[0]]
    requires forall v, x :: 0 <= v < |next| && seen[v] && x in next[v] && x < |next| ==> seen[x]
    ensures seen[w[|w| - 1]]
    decreases |w|
  {
    if |w| > 1 {
      var w' := w[..|w| - 1];
      assert IsWalk(next, w');
      ClosedUnderWalk(next, seen, w');
      assert w[|w| - 2 + 1] in next[w[|w| - 2]];
    }
  }

  function Reversed(w: seq<nat>): seq<nat> {
    seq(|w|, i requires 0 <= i < |w| => w[|w| - 1 - i])
  }

  lemma ReverseWalk(g: Graph, w: seq<nat>)
    requires WellFormed(g)
    ensures IsWalk(g.succs, w) ==> IsWalk(g.preds, Reversed(w))
    ensures IsWalk(g.preds, w) ==> IsWalk(g.succs, Reversed(w))
  {
    var r := Reversed(w);
    EdgesBothWays(g);
    if IsWalk(g.succs, w) || IsWalk(g.preds, w) {
      forall i | 0 <= i < |r| - 1
        ensures IsWalk(g.succs, w) ==> r[i + 1] in g.preds[r[i]]
        ensures IsWalk(g.preds, w) ==> r[i + 1] in g.succs[r[i]]
      {
        assert w[|w| - 2 - i + 1] == r[i];
      }
    }
  }

  lemma ReachesReversed(g: Graph, u: nat, v: nat)
    requires WellFormed(g)
    ensures Reaches(g.preds, u, v) <==> Reaches(g.succs, v, u)
  {
    if Reaches(g.preds, u, v) {
      var w :| WalkFromTo(g.preds, w, u, v);
      ReverseWalk(g, w);
      assert WalkFromTo(g.succs, Reversed(w), v, u);
    }
    if Reaches(g.succs, v, u) {
      var w :| WalkFromTo(g.succs, w, v, u);
      ReverseWalk(g, w);
      assert WalkFromTo(g.preds, Reversed(w), u, v);
    }
  }
}
