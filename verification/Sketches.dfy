/** Small plans given by the number of their nodes, their edges and their any_of joins. */
module Sketches {
  import opened Plans
  import opened Graphs
  import opened Machine
  import opened Invariants
  import opened LoopHead
  import opened Skipping
  import opened Scheduler
  import Validate

  /** n nodes without side effects or budgets; those in `joins` are any_of. */
  function Sketch(n: nat, es: seq<(nat, nat)>, joins: set<nat>): (g: Graph)
    ensures g.N() == |g.preds| == |g.succs| == n
    ensures forall v :: 0 <= v < n ==> (g.IsAny(v) <==> v in joins) && !g.IsDestructive(v)
  {
    Graph(seq(n, i requires 0 <= i < n =>
                Node(seq(i + 1, _ => 'n'), if i in joins then AnyOf else AllOf, NoEffect, 0, 0, None)),
          seq(n, v requires 0 <= v < n => PredList(es, v)), seq(n, u requires 0 <= u < n => SuccList(es, u)))
  }

  ghost predicate EdgesWithin(n: nat, es: seq<(nat, nat)>) {
    forall k :: 0 <= k < |es| ==> es[k].0 < n && es[k].1 < n
  }

  lemma SketchIds(n: nat, es: seq<(nat, nat)>, joins: set<nat>)
    ensures UniqueIds(Sketch(n, es, joins).nodes)
  {
    assert forall i :: 0 <= i < n ==> |Sketch(n, es, joins).nodes[i].id| == i + 1;
  }

  /** The neighbours of a sketch are its edges. */
  lemma SketchEdge(n: nat, es: seq<(nat, nat)>, joins: set<nat>, u: nat, v: nat)
    requires u < n && v < n
    ensures var g := Sketch(n, es, joins);
      && Mult(g.preds[v], u) == Mult(g.succs[u], v)
      && (u in g.preds[v] <==> (u, v) in es) && (v in g.succs[u] <==> (u, v) in es)
  {
    ListsCountEdges(es, u, v);
  }

  lemma SketchBounds(n: nat, es: seq<(nat, nat)>, joins: set<nat>, v: nat)
    requires EdgesWithin(n, es) && v < n
    ensures var g := Sketch(n, es, joins); forall u :: u in g.preds[v] || u in g.succs[v] ==> u < n
  {
    ListsHoldNeighbours(es, v);
  }

  lemma SketchWellFormed(n: nat, es: seq<(nat, nat)>, joins: set<nat>)
    requires EdgesWithin(n, es)
    ensures WellFormed(Sketch(n, es, joins))
  {
    SketchIds(n, es, joins);
    var g := Sketch(n, es, joins);
    hide Sketch, UniqueIds, EdgesWithin;
    forall v: nat | v < n
      ensures forall u :: u in g.preds[v] || u in g.succs[v] ==> u < n
    {
      SketchBounds(n, es, joins, v);
    }
    forall u: nat, v: nat | u < n && v < n
      ensures Mult(g.preds[v], u) == Mult(g.succs[u], v)
    {
      SketchEdge(n, es, joins, u, v);
    }
  }

  lemma SketchEntry(n: nat, es: seq<(nat, nat)>, joins: set<nat>, v: nat)
    requires v < n && EdgesWithin(n, es)
    ensures Sketch(n, es, joins).preds[v] == [] <==> forall k :: 0 <= k < |es| ==> es[k].1 != v
  {
    var g := Sketch(n, es, joins);
    ListsHoldNeighbours(es, v);
    if g.preds[v] != [] {
      assert (g.preds[v][0], v) in es;
    }
    forall k | 0 <= k < |es| && es[k].1 == v
      ensures g.preds[v] != []
    {
      SketchEdge(n, es, joins, es[k].0, v);
    }
  }

  // ---- runs with room for every node ------------------------------------------------------------

  ghost predicate Roomy(c: Config) {
    c.maxParallel >= c.g.N() && forall v :: 0 <= v < c.g.N() ==> !c.g.IsDestructive(v)
  }

  lemma {:induction false} FewWorkers(m: multiset<nat>, n: nat)
    requires forall v: nat :: m[v] <= 1 && (v in m ==> v < n)
    ensures |m| <= n
  {
    if n == 0 {
      assert m == multiset{};
    } else {
      var k: nat := n - 1;
      FewWorkers(m[k := 0], k);
      assert m == m[k := 0] + multiset{k}[k := m[k]];
    }
  }

  lemma NoWorkerYet(c: Config, s: St, v: nat)
    requires WellFormed(c.g) && Accounted(c, s) && v < c.g.N() && s.state[v].Ready?
    ensures s.inFlight < c.g.N()
  {
    assert s.workers[v] == 0;
    assert s.workers[v := 1] == s.workers + multiset{v};
    FewWorkers(s.workers[v := 1], c.g.N());
  }

  /** Then nothing waits for dispatch. */
  lemma NothingWaits(c: Config, s: St)
    requires Checked(c) && AtHead(c, s) && Roomy(c)
    ensures NothingReady(s.state)
  {
    if v :| 0 <= v < |s.state| && s.state[v].Ready? {
      NoWorkerYet(c, s, v);
    }
  }

  lemma RoomyStart(c: Config, v: nat)
    requires Checked(c) && Roomy(c) && v < c.g.N()
    ensures Start(c).state[v] == if c.g.preds[v] == [] then Running else Pending
  {
    StartAtHead(c);
    NothingWaits(c, Start(c));
    SeedShape(c.g, Blank(c.g), 0);
  }

  ghost predicate HasInEdge(es: seq<(nat, nat)>, v: nat) {
    exists k :: 0 <= k < |es| && es[k].1 == v
  }

  lemma SketchReady(c: Config, n: nat, es: seq<(nat, nat)>, joins: set<nat>)
    requires c.g == Sketch(n, es, joins) && EdgesWithin(n, es) && c.maxParallel >= n > 0
    ensures Checked(c) && Roomy(c)
  {
    SketchWellFormed(n, es, joins);
    hide WellFormed;
  }

  lemma SketchStart(c: Config, n: nat, es: seq<(nat, nat)>, joins: set<nat>, v: nat)
    requires c.g == Sketch(n, es, joins) && EdgesWithin(n, es) && c.maxParallel >= n && v < n
    requires Checked(c) && Roomy(c)
    ensures Start(c).state[v] == if HasInEdge(es, v) then Pending else Running
  {
    SketchEntry(n, es, joins, v);
    hide Start, Sketch, WellFormed, EdgesWithin;
    RoomyStart(c, v);
  }

  // ---- what can be read off the edges -----------------------------------------------------------

  /** In a sketch, what `ShareAnyOf` and `StillNeeded` ask can be read off the edges. */
  lemma SketchUnshared(n: nat, es: seq<(nat, nat)>, joins: set<nat>, w: nat, v: nat)
    requires WellFormed(Sketch(n, es, joins)) && w < n && v < n
    requires forall j: nat :: j in joins && (w, j) in es ==> (v, j) !in es
    ensures !ShareAnyOf(Sketch(n, es, joins), w, 0, v)
  {
    var g := Sketch(n, es, joins);
    if ShareAnyOf(g, w, 0, v) {
      var i :| 0 <= i < |g.succs[w]| && AnyOfCandidate(g, g.succs[w][i], v);
      var j := g.succs[w][i];
      assert j in g.succs[w];
      hide Sketch, WellFormed;
      SketchEdge(n, es, joins, w, j);
      SketchEdge(n, es, joins, v, j);
    }
  }

  lemma SketchWinner(n: nat, es: seq<(nat, nat)>, joins: set<nat>, st: seq<NodeState>, j: nat)
    requires WellFormed(Sketch(n, es, joins)) && |st| == n && j < n
    ensures HasExecutedPred(Sketch(n, es, joins), st, j) <==>
      exists u: nat :: u < n && (u, j) in es && st[u].Executed?
  {
    var g := Sketch(n, es, joins);
    forall u: nat | u < n
      ensures u in g.preds[j] <==> (u, j) in es
    {
      SketchEdge(n, es, joins, u, j);
    }
    hide Sketch;
  }

  ghost predicate NeededBy(es: seq<(nat, nat)>, joins: set<nat>, st: seq<NodeState>, v: nat, j: nat) {
    && j < |st| && (v, j) in es
    && if j in joins then forall u: nat :: u < |st| && (u, j) in es ==> !st[u].Executed? else !st[j].IsTerminal()
  }

  lemma SketchNeeded(n: nat, es: seq<(nat, nat)>, joins: set<nat>, st: seq<NodeState>, v: nat)
    requires WellFormed(Sketch(n, es, joins)) && |st| == n && v < n
    ensures StillNeeded(Sketch(n, es, joins), st, v) <==> exists j: nat :: NeededBy(es, joins, st, v, j)
  {
    var g := Sketch(n, es, joins);
    assert g.N() == n && forall j :: 0 <= j < n ==> (g.IsAny(j) <==> j in joins);
    hide Sketch;
    forall j: nat | j < n
      ensures j in g.succs[v] <==> (v, j) in es
      ensures HasExecutedPred(g, st, j) <==> exists u: nat :: u < n && (u, j) in es && st[u].Executed?
    {
      SketchEdge(n, es, joins, v, j);
      SketchWinner(n, es, joins, st, j);
    }
    if StillNeeded(g, st, v) {
      var j :| j in g.succs[v] && if g.IsAny(j) then !HasExecutedPred(g, st, j) else !st[j].IsTerminal();
      assert NeededBy(es, joins, st, v, j);
    }
    if j: nat :| NeededBy(es, joins, st, v, j) {
      assert j in g.succs[v];
    }
  }

  /** w and v race for no join. */
  ghost predicate Apart(es: seq<(nat, nat)>, joins: set<nat>, w: nat, v: nat) {
    forall j: nat :: j in joins && (w, j) in es ==> (v, j) !in es
  }

  lemma SketchBehind(n: nat, es: seq<(nat, nat)>, joins: set<nat>, st: seq<NodeState>, w: nat, v: nat)
    requires WellFormed(Sketch(n, es, joins)) && |st| == n && w < n && v < n
    requires forall x: nat :: x < n && x !in joins && (v, x) in es ==> Apart(es, joins, w, x)
    ensures NoSiblingBehind(Sketch(n, es, joins), st, w, v)
  {
    var g := Sketch(n, es, joins);
    assert g.N() == n && forall x :: 0 <= x < n ==> (g.IsAny(x) <==> x in joins);
    hide ShareAnyOf;
    forall x | x in g.succs[v] && !g.IsAny(x) && !st[x].IsTerminal()
      ensures !ShareAnyOf(g, w, 0, x)
    {
      SketchEdge(n, es, joins, v, x);
      SketchUnshared(n, es, joins, w, x);
    }
  }

  /** A sketch has no other neighbours than its edges. */
  lemma SketchSuccs(n: nat, es: seq<(nat, nat)>, joins: set<nat>, u: nat)
    requires EdgesWithin(n, es) && u < n
    ensures forall v :: v in Sketch(n, es, joins).succs[u] <==> (u, v) in es
  {
    ListsHoldNeighbours(es, u);
    hide EdgesWithin, SuccList;
    forall v: nat | (u, v) in es
      ensures v in Sketch(n, es, joins).succs[u]
    {
      ListsCountEdges(es, u, v);
    }
  }

  // ---- sketches as plans ------------------------------------------------------------------------

  /** The plan of a sketch. */
  function PlanOf(n: nat, es: seq<(nat, nat)>, joins: set<nat>): Plan
    requires EdgesWithin(n, es)
  {
    var nodes := Sketch(n, es, joins).nodes;
    Plan("plan", 1, nodes, seq(|es|, k requires 0 <= k < |es| => Edge(nodes[es[k].0].id, nodes[es[k].1].id)))
  }

  /** Edges lead to later nodes, and a join has two different ones. */
  ghost predicate Proper(n: nat, es: seq<(nat, nat)>, joins: set<nat>) {
    && n > 0 && (forall k :: 0 <= k < |es| ==> es[k].0 < es[k].1 < n)
    && forall j: nat :: j in joins && j < n ==> exists a, b :: a != b && (a, j) in es && (b, j) in es
  }

  lemma PlanIsValid(n: nat, es: seq<(nat, nat)>, joins: set<nat>)
    requires Proper(n, es, joins)
    ensures EdgesWithin(n, es) && BasicValid(PlanOf(n, es, joins))
  {
    var p := PlanOf(n, es, joins);
    SketchIds(n, es, joins);
    forall k | 0 <= k < |p.edges|
      ensures EdgeOk(p.nodes, p.edges[k])
    {
      assert p.nodes[es[k].0].id == p.edges[k].from && p.nodes[es[k].1].id == p.edges[k].to;
      assert |p.edges[k].from| == es[k].0 + 1 && |p.edges[k].to| == es[k].1 + 1;
    }
  }

  lemma PlanHasGraph(n: nat, es: seq<(nat, nat)>, joins: set<nat>)
    requires EdgesWithin(n, es) && BasicValid(PlanOf(n, es, joins))
    ensures GraphOf(PlanOf(n, es, joins)) == Sketch(n, es, joins)
  {
    var p := PlanOf(n, es, joins);
    forall k | 0 <= k < |es|
      ensures EdgePairs(p)[k] == es[k]
    {
      PlanEnds(n, es, joins, k);
    }
    assert EdgePairs(p) == es;
    hide EdgePairs, PlanOf, BasicValid;
    assert p.nodes == Sketch(n, es, joins).nodes by { PlanNodes(n, es, joins); }
    ListsAreGraph(p, Sketch(n, es, joins));
  }

  lemma PlanNodes(n: nat, es: seq<(nat, nat)>, joins: set<nat>)
    requires EdgesWithin(n, es)
    ensures PlanOf(n, es, joins).nodes == Sketch(n, es, joins).nodes
  {
    hide Sketch;
  }

  lemma PlanEnds(n: nat, es: seq<(nat, nat)>, joins: set<nat>, k: nat)
    requires EdgesWithin(n, es) && BasicValid(PlanOf(n, es, joins)) && k < |es|
    ensures EdgePairs(PlanOf(n, es, joins))[k] == es[k]
  {
    var p := PlanOf(n, es, joins);
    var pair := EdgePairs(p)[k];
    assert p.nodes[pair.0].id == p.nodes[es[k].0].id && p.nodes[pair.1].id == p.nodes[es[k].1].id;
    assert |p.nodes[pair.0].id| == pair.0 + 1 && |p.nodes[es[k].0].id| == es[k].0 + 1;
    assert |p.nodes[pair.1].id| == pair.1 + 1 && |p.nodes[es[k].1].id| == es[k].1 + 1;
    hide EdgePairs, PlanOf, BasicValid;
  }

  lemma {:induction false} WalkRises(g: Graph, w: seq<nat>)
    requires WellFormed(g) && IsWalk(g.succs, w) && |w| >= 2
    requires forall u, v :: 0 <= u < g.N() && v in g.succs[u] ==> u < v
    ensures w[0] < w[|w| - 1]
    decreases |w|
  {
    var k := |w| - 2;
    assert w[k + 1] in g.succs[w[k]];
    if k > 0 {
      assert IsWalk(g.succs, w[..k + 1]);
      WalkRises(g, w[..k + 1]);
    }
  }

  lemma SketchAcyclic(n: nat, es: seq<(nat, nat)>, joins: set<nat>)
    requires Proper(n, es, joins) && WellFormed(Sketch(n, es, joins))
    ensures Acyclic(Sketch(n, es, joins))
  {
    var g := Sketch(n, es, joins);
    forall u, v | 0 <= u < g.N() && v in g.succs[u]
      ensures u < v
    {
      SketchEdge(n, es, joins, u, v);
    }
    hide Sketch, Proper;
    forall v
      ensures !OnCycle(g, v)
    {
      if OnCycle(g, v) {
        var w :| WalkFromTo(g.succs, w, v, v) && |w| >= 2;
        WalkRises(g, w);
      }
    }
  }

  lemma SketchJoin(n: nat, es: seq<(nat, nat)>, joins: set<nat>, j: nat)
    requires Proper(n, es, joins) && j < n && j in joins
    ensures |Sketch(n, es, joins).preds[j]| >= 2
  {
    var a, b :| a != b && (a, j) in es && (b, j) in es;
    assert a < n && b < n;
    SketchEdge(n, es, joins, a, j);
    SketchEdge(n, es, joins, b, j);
    hide Sketch;
  }

  /** g is the graph of a plan that `Run` accepts. */
  ghost predicate PlanFor(g: Graph, n: nat, es: seq<(nat, nat)>, joins: set<nat>, jsonValid: string -> bool) {
    EdgesWithin(n, es) && var p := PlanOf(n, es, joins); Accepted(p, jsonValid) && GraphOf(p) == g
  }

  lemma SketchAccepted(n: nat, es: seq<(nat, nat)>, joins: set<nat>, jsonValid: string -> bool)
    requires Proper(n, es, joins)
    ensures PlanFor(Sketch(n, es, joins), n, es, joins, jsonValid)
  {
    PlanIsValid(n, es, joins);
    PlanHasGraph(n, es, joins);
    SketchWellFormed(n, es, joins);
    SketchAcyclic(n, es, joins);
    var g := Sketch(n, es, joins);
    forall v | 0 <= v < n
      ensures Validate.NodeChecksPass(g, jsonValid, v)
    {
      if v in joins { SketchJoin(n, es, joins, v); }
    }
    hide Proper, Acyclic, WellFormed;
    Validate.CheckSilentIff(g, jsonValid);
  }
}
