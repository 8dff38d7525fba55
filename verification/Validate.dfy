/** The structural checks (engine/validate/validate.go, `Check` and `reachabilityProblems`).
    `json.Valid` is the parameter `jsonValid`; an error text is its kind and numbers. */
module Validate {
  import opened Plans
  import opened Graphs
  import opened Topo

  datatype Problem =
    | CycleFound(unordered: nat, total: nat)
    | Unreachable(node: nat)
    | DeadNode(node: nat)
    | TooFewCandidates(node: nat, have: nat)
    | BadSchema(node: nat)
    | DestructiveCandidate(node: nat)

  // ---- check 2: reachability -----------------------------------------------------

  /** Some node with an empty `ends` list reaches v along `next`. */
  ghost predicate ReachedFromEnd(next: seq<seq<nat>>, ends: seq<seq<nat>>, v: nat)
    requires |next| == |ends|
  {
    exists e :: 0 <= e < |ends| && ends[e] == [] && Reaches(next, e, v)
  }

  ghost predicate InRange(next: seq<seq<nat>>) {
    forall v, x :: 0 <= v < |next| && x in next[v] ==> x < |next|
  }

  ghost function Unseen(seen: seq<bool>): set<nat> {
    set v | 0 <= v < |seen| && !seen[v]
  }

  /** Everything marked is reached, and only stacked or busy nodes may have unmarked neighbours. */
  ghost predicate FloodInv(next: seq<seq<nat>>, ends: seq<seq<nat>>, seen: seq<bool>,
                           stack: seq<nat>, busy: set<nat>)
    requires |next| == |ends|
  {
    && |seen| == |next|
    && (forall v :: 0 <= v < |seen| && seen[v] ==> ReachedFromEnd(next, ends, v))
    && (forall i :: 0 <= i < |stack| ==> stack[i] < |seen| && seen[stack[i]])
    && (forall v, x :: 0 <= v < |seen| && seen[v] && v !in stack && v !in busy && x in next[v] && x < |next|
          ==> seen[x])
  }

  /** One of the two worklists: mark the nodes without `ends` and all they reach along `next`. */
  method Flood(next: seq<seq<nat>>, ends: seq<seq<nat>>) returns (seen: seq<bool>)
    requires |next| == |ends| && InRange(next)
    ensures |seen| == |next|
    ensures forall v :: 0 <= v < |seen| ==> (seen[v] <==> ReachedFromEnd(next, ends, v))
  {
    var stack: seq<nat>;
    seen, stack := FloodSeeds(next, ends);
    while |stack| > 0
      invariant FloodInv(next, ends, seen, stack, {})
      invariant forall x :: 0 <= x < |next| && ends[x] == [] ==> seen[x]
      decreases Unseen(seen), |stack|
    {
      var id := stack[|stack| - 1];
      assert stack == stack[..|stack| - 1] + [id];
      seen, stack := FloodNode(next, ends, seen, stack[..|stack| - 1], id);
    }
    FloodComplete(next, ends, seen);
  }

  method FloodSeeds(next: seq<seq<nat>>, ends: seq<seq<nat>>) returns (seen: seq<bool>, stack: seq<nat>)
    requires |next| == |ends|
    ensures FloodInv(next, ends, seen, stack, {})
    ensures forall x :: 0 <= x < |next| && ends[x] == [] ==> seen[x]
  {
    seen, stack := seq(|next|, _ => false), [];
    for v := 0 to |next|
      invariant |seen| == |next|
      invariant forall x :: 0 <= x < |next| ==> (seen[x] <==> x < v && ends[x] == [])
      invariant forall x :: 0 <= x < |next| && seen[x] ==> x in stack && ReachedFromEnd(next, ends, x)
      invariant forall i :: 0 <= i < |stack| ==> stack[i] < |seen| && seen[stack[i]]
    {
      if |ends[v]| == 0 && !seen[v] {
        ReachSelf(next, v);
        seen, stack := seen[v := true], stack + [v];
      }
    }
  }

  /** The body of the worklist loop: mark and stack the unmarked neighbours of `id`. */
  method FloodNode(next: seq<seq<nat>>, ends: seq<seq<nat>>, seen0: seq<bool>, stack0: seq<nat>, id: nat)
    returns (seen: seq<bool>, stack: seq<nat>)
    requires |next| == |ends| && InRange(next) && id < |seen0| && seen0[id]
    requires FloodInv(next, ends, seen0, stack0, {id})
    ensures FloodInv(next, ends, seen, stack, {})
    ensures forall x :: 0 <= x < |seen0| && seen0[x] ==> seen[x]
    ensures Unseen(seen) < Unseen(seen0) || (seen == seen0 && stack == stack0)
  {
    seen, stack := seen0, stack0;
    for k := 0 to |next[id]|
      invariant FloodInv(next, ends, seen, stack, {id})
      invariant forall x :: x in next[id][..k] ==> x < |seen| && seen[x]
      invariant forall x :: 0 <= x < |seen0| && seen0[x] ==> seen[x]
      invariant Unseen(seen) < Unseen(seen0) || (seen == seen0 && stack == stack0)
    {
      var s := next[id][k];
      assert s in next[id];
      assert next[id][..k + 1] == next[id][..k] + [s];
      if !seen[s] {
        MarkOne(next, ends, seen, stack, id, s);
        seen, stack := seen[s := true], stack + [s];
      }
    }
    assert next[id][..|next[id]|] == next[id];
  }

  lemma MarkOne(next: seq<seq<nat>>, ends: seq<seq<nat>>, seen: seq<bool>, stack: seq<nat>, id: nat, s: nat)
    requires |next| == |ends| == |seen| && id < |seen| && seen[id] && s in next[id] && s < |seen| && !seen[s]
    requires FloodInv(next, ends, seen, stack, {id})
    ensures FloodInv(next, ends, seen[s := true], stack + [s], {id})
    ensures Unseen(seen[s := true]) < Unseen(seen)
  {
    var e :| 0 <= e < |ends| && ends[e] == [] && Reaches(next, e, id);
    ReachStep(next, e, id, s);
    assert s in Unseen(seen) && s !in Unseen(seen[s := true]);
    assert s in stack + [s];
    assert forall v :: v !in stack + [s] ==> v !in stack;
  }

  lemma FloodComplete(next: seq<seq<nat>>, ends: seq<seq<nat>>, seen: seq<bool>)
    requires |next| == |ends|
    requires FloodInv(next, ends, seen, [], {})
    requires forall x :: 0 <= x < |next| && ends[x] == [] ==> seen[x]
    ensures forall v :: 0 <= v < |seen| ==> (seen[v] <==> ReachedFromEnd(next, ends, v))
  {
    forall v | 0 <= v < |seen| && ReachedFromEnd(next, ends, v)
      ensures seen[v]
    {
      var e :| 0 <= e < |ends| && ends[e] == [] && Reaches(next, e, v);
      var w :| WalkFromTo(next, w, e, v);
      ClosedUnderWalk(next, seen, w);
    }
  }

  /** Some entry node (one without predecessors) leads to v. */
  ghost predicate FromEntry(g: Graph, v: nat) {
    exists e :: 0 <= e < |g.preds| && g.preds[e] == [] && Reaches(g.succs, e, v)
  }

  /** v leads to some exit node (one without successors). */
  ghost predicate ToExit(g: Graph, v: nat) {
    exists e :: 0 <= e < |g.succs| && g.succs[e] == [] && Reaches(g.succs, v, e)
  }

  lemma FloodMeaning(g: Graph, v: nat)
    requires WellFormed(g)
    ensures ReachedFromEnd(g.succs, g.preds, v) <==> FromEntry(g, v)
    ensures ReachedFromEnd(g.preds, g.succs, v) <==> ToExit(g, v)
  {
    forall e | 0 <= e < g.N()
      ensures Reaches(g.preds, e, v) <==> Reaches(g.succs, v, e)
    {
      ReachesReversed(g, e, v);
    }
  }

  ghost function ReachProblems(g: Graph, k: nat): seq<Problem>
    requires WellFormed(g) && k <= g.N()
  {
    if k == 0 then []
    else ReachProblems(g, k - 1)
         + (if FromEntry(g, k - 1) then [] else [Unreachable(k - 1)])
         + (if ToExit(g, k - 1) then [] else [DeadNode(k - 1)])
  }

  method ReachabilityProblems(g: Graph) returns (problems: seq<Problem>)
    requires WellFormed(g)
    ensures problems == ReachProblems(g, g.N())
  {
    EdgesBothWays(g);
    var fromEntry := Flood(g.succs, g.preds);
    var toExit := Flood(g.preds, g.succs);
    problems := [];
    for v := 0 to g.N()
      invariant problems == ReachProblems(g, v)
    {
      FloodMeaning(g, v);
      if !fromEntry[v] { problems := problems + [Unreachable(v)]; }
      if !toExit[v] { problems := problems + [DeadNode(v)]; }
    }
  }

  // ---- checks 3, 4, 5 ----------------------------------------------------------------

  predicate FeedsAnyOf(g: Graph, v: nat)
    requires WellFormed(g)
  {
    exists j :: 0 <= j < g.N() && g.IsAny(j) && v in g.preds[j]
  }

  predicate SchemaParses(n: Node, jsonValid: string -> bool) {
    n.schema.Some? && |n.schema.value| > 0 ==> jsonValid(n.schema.value)
  }

  ghost function ProblemsOf(g: Graph, jsonValid: string -> bool, v: nat): seq<Problem>
    requires WellFormed(g) && v < g.N()
  {
    (if g.IsAny(v) && |g.preds[v]| < 2 then [TooFewCandidates(v, |g.preds[v]|)] else [])
    + (if SchemaParses(g.nodes[v], jsonValid) then [] else [BadSchema(v)])
    + (if g.IsDestructive(v) && FeedsAnyOf(g, v) then [DestructiveCandidate(v)] else [])
  }

  ghost function NodeProblems(g: Graph, jsonValid: string -> bool, k: nat): seq<Problem>
    requires WellFormed(g) && k <= g.N()
  {
    if k == 0 then [] else NodeProblems(g, jsonValid, k - 1) + ProblemsOf(g, jsonValid, k - 1)
  }

  ghost function CheckSpec(g: Graph, jsonValid: string -> bool): seq<Problem>
    requires WellFormed(g)
  {
    TopoCompleteIffAcyclic(g);
    (if Acyclic(g) then [] else [CycleFound(g.N() - |TopoSpec(g)|, g.N())])
    + ReachProblems(g, g.N())
    + NodeProblems(g, jsonValid, g.N())
  }

  // ---- what is reported -------------------------------------------------------------------------

  /** The nodes that some cycle leads to; they cannot be ordered. */
  ghost function CycleReached(g: Graph): set<nat> {
    set v: nat | v < g.N() && BehindCycle(g, v)
  }

  ghost predicate BehindCycle(g: Graph, v: nat) {
    exists c :: OnCycle(g, c) && Reaches(g.succs, c, v)
  }

  /** The problems a plan has, stated on its graph. */
  ghost predicate IsProblem(g: Graph, jsonValid: string -> bool, p: Problem)
    requires WellFormed(g)
  {
    match p
    case CycleFound(unordered, total) => !Acyclic(g) && total == g.N() && unordered == |CycleReached(g)|
    case Unreachable(v) => v < g.N() && !FromEntry(g, v)
    case DeadNode(v) => v < g.N() && !ToExit(g, v)
    case TooFewCandidates(v, have) => v < g.N() && g.nodes[v].join == AnyOf && have == |g.preds[v]| < 2
    case BadSchema(v) => v < g.N() && !SchemaParses(g.nodes[v], jsonValid)
    case DestructiveCandidate(v) => v < g.N() && g.nodes[v].sideEffect == Destructive && FeedsAnyOf(g, v)
  }

  /** The place of a problem in the list: the cycle, then reachability, then the other checks, each in
      plan order. */
  function Place(n: nat, p: Problem): nat {
    match p
    case CycleFound(_, _) => 0
    case Unreachable(v) => 1 + 2 * v
    case DeadNode(v) => 2 + 2 * v
    case TooFewCandidates(v, _) => 1 + 2 * n + 3 * v
    case BadSchema(v) => 2 + 2 * n + 3 * v
    case DestructiveCandidate(v) => 3 + 2 * n + 3 * v
  }

  ghost predicate InPlace(n: nat, ps: seq<Problem>) {
    forall i, j :: 0 <= i < j < |ps| ==> Place(n, ps[i]) < Place(n, ps[j])
  }

  /** Every problem once, in the order of the checks. */
  ghost predicate AllProblems(g: Graph, jsonValid: string -> bool, ps: seq<Problem>)
    requires WellFormed(g)
  {
    (forall p :: p in ps <==> IsProblem(g, jsonValid, p)) && InPlace(g.N(), ps)
  }

  /** The one `Run` reports: no other problem has a place before it. */
  ghost predicate IsFirstProblem(g: Graph, jsonValid: string -> bool, p: Problem)
    requires WellFormed(g)
  {
    IsProblem(g, jsonValid, p) && forall q :: IsProblem(g, jsonValid, q) && q != p ==> Place(g.N(), p) < Place(g.N(), q)
  }

  lemma FirstOfAll(g: Graph, jsonValid: string -> bool, ps: seq<Problem>)
    requires WellFormed(g) && AllProblems(g, jsonValid, ps)
    ensures ps == [] <==> forall q :: !IsProblem(g, jsonValid, q)
    ensures ps != [] ==> IsFirstProblem(g, jsonValid, ps[0])
  {
    hide IsProblem, Place, WellFormed;
    if ps == [] {
      forall q
        ensures !IsProblem(g, jsonValid, q)
      {
        assert q !in ps;
      }
    } else {
      assert ps[0] in ps;
      forall q | IsProblem(g, jsonValid, q) && q != ps[0]
        ensures Place(g.N(), ps[0]) < Place(g.N(), q)
      {
        assert q in ps;
        var j :| 0 <= j < |ps| && ps[j] == q;
      }
    }
  }

  lemma InPlaceAppend(n: nat, a: seq<Problem>, b: seq<Problem>, mid: nat)
    requires InPlace(n, a) && InPlace(n, b)
    requires (forall p :: p in a ==> Place(n, p) < mid) && (forall p :: p in b ==> Place(n, p) >= mid)
    ensures InPlace(n, a + b)
  {
    var ps := a + b;
    forall i, j | 0 <= i < j < |ps|
      ensures Place(n, ps[i]) < Place(n, ps[j])
    {
      if i < |a| <= j { assert ps[i] in a && ps[j] in b; }
    }
  }

  ghost function ReachOf(g: Graph, v: nat): seq<Problem> {
    (if FromEntry(g, v) then [] else [Unreachable(v)]) + (if ToExit(g, v) then [] else [DeadNode(v)])
  }

  ghost predicate AboutReach(p: Problem, k: nat) {
    (p.Unreachable? || p.DeadNode?) && p.node < k
  }

  lemma ReachOfMeaning(g: Graph, jsonValid: string -> bool, v: nat)
    requires WellFormed(g) && v < g.N()
    ensures forall p :: p in ReachOf(g, v) <==> AboutReach(p, v + 1) && !AboutReach(p, v) && IsProblem(g, jsonValid, p)
    ensures InPlace(g.N(), ReachOf(g, v))
  {
    hide WellFormed, FromEntry, ToExit, Acyclic, CycleReached, FeedsAnyOf, SchemaParses;
  }

  lemma {:induction false} ReachMeaning(g: Graph, jsonValid: string -> bool, k: nat)
    requires WellFormed(g) && k <= g.N()
    ensures forall p :: p in ReachProblems(g, k) <==> AboutReach(p, k) && IsProblem(g, jsonValid, p)
    ensures InPlace(g.N(), ReachProblems(g, k))
  {
    hide WellFormed, IsProblem, FromEntry, ToExit;
    if k > 0 {
      var v: nat := k - 1;
      ReachMeaning(g, jsonValid, v);
      ReachOfMeaning(g, jsonValid, v);
      assert ReachProblems(g, k) == ReachProblems(g, v) + ReachOf(g, v);
      hide ReachOf, ReachProblems, InPlace;
      InPlaceAppend(g.N(), ReachProblems(g, v), ReachOf(g, v), 1 + 2 * v);
    }
  }

  ghost predicate AboutNode(p: Problem, k: nat) {
    (p.TooFewCandidates? || p.BadSchema? || p.DestructiveCandidate?) && p.node < k
  }

  lemma NodeMeaning(g: Graph, jsonValid: string -> bool, v: nat)
    requires WellFormed(g) && v < g.N()
    ensures forall p :: p in ProblemsOf(g, jsonValid, v) <==>
      (p.TooFewCandidates? || p.BadSchema? || p.DestructiveCandidate?) && p.node == v && IsProblem(g, jsonValid, p)
    ensures InPlace(g.N(), ProblemsOf(g, jsonValid, v))
  {
    hide WellFormed, FeedsAnyOf, SchemaParses, FromEntry, ToExit, Acyclic, CycleReached;
  }

  lemma {:induction false} NodesMeaning(g: Graph, jsonValid: string -> bool, k: nat)
    requires WellFormed(g) && k <= g.N()
    ensures forall p :: p in NodeProblems(g, jsonValid, k) <==> AboutNode(p, k) && IsProblem(g, jsonValid, p)
    ensures InPlace(g.N(), NodeProblems(g, jsonValid, k))
  {
    hide WellFormed, ProblemsOf, IsProblem;
    if k > 0 {
      var v: nat := k - 1;
      NodesMeaning(g, jsonValid, v);
      NodeMeaning(g, jsonValid, v);
      InPlaceAppend(g.N(), NodeProblems(g, jsonValid, v), ProblemsOf(g, jsonValid, v), 1 + 2 * g.N() + 3 * v);
    }
  }

  ghost function Range(n: nat): (r: set<nat>)
    ensures |r| == n && forall v: nat :: v in r <==> v < n
  {
    if n == 0 then {} else Range(n - 1) + {(n - 1) as nat}
  }

  ghost function Elements(o: seq<nat>): (r: set<nat>)
    ensures forall v: nat :: v in r <==> v in o
  {
    if |o| == 0 then {} else Elements(o[..|o| - 1]) + {o[|o| - 1]}
  }

  lemma {:induction false} DistinctSize(o: seq<nat>)
    requires forall i, j :: 0 <= i < j < |o| ==> o[i] != o[j]
    ensures |Elements(o)| == |o|
  {
    if |o| > 0 {
      DistinctSize(o[..|o| - 1]);
      assert o[|o| - 1] !in o[..|o| - 1];
    }
  }

  /** The nodes that are not ordered are those a cycle leads to. */
  lemma UnorderedCount(g: Graph)
    requires WellFormed(g)
    ensures |TopoSpec(g)| <= g.N() && g.N() - |TopoSpec(g)| == |CycleReached(g)|
  {
    TopoPrefix(g);
    var o, bad := TopoSpec(g), CycleReached(g);
    DistinctSize(o);
    assert forall v: nat :: v in bad <==> v < g.N() && v !in o;
    hide OnCycle, Reaches, TopoSpec, WellFormed, CycleReached, Ordered;
    var done, all := Elements(o), Range(g.N());
    assert all == done + bad && done !! bad;
  }

  ghost function CycleOf(g: Graph): seq<Problem>
    requires WellFormed(g)
  {
    if Acyclic(g) then [] else [CycleFound(|CycleReached(g)|, g.N())]
  }

  lemma CycleMeaning(g: Graph, jsonValid: string -> bool)
    requires WellFormed(g)
    ensures forall p :: p in CycleOf(g) <==> p.CycleFound? && IsProblem(g, jsonValid, p)
    ensures forall p :: IsProblem(g, jsonValid, p) ==> p.CycleFound? || AboutReach(p, g.N()) || AboutNode(p, g.N())
  {
    hide WellFormed, Acyclic, CycleReached, FromEntry, ToExit, FeedsAnyOf, SchemaParses;
  }

  lemma CheckMeaning(g: Graph, jsonValid: string -> bool)
    requires WellFormed(g)
    ensures AllProblems(g, jsonValid, CheckSpec(g, jsonValid))
  {
    UnorderedCount(g);
    var n := g.N();
    var a, b, c := CycleOf(g), ReachProblems(g, n), NodeProblems(g, jsonValid, n);
    assert CheckSpec(g, jsonValid) == a + b + c;
    CycleMeaning(g, jsonValid);
    ReachMeaning(g, jsonValid, n);
    NodesMeaning(g, jsonValid, n);
    SingleInPlace(n, a);
    hide WellFormed, ReachProblems, NodeProblems, IsProblem, CheckSpec, InPlace, CycleOf;
    InPlaceAppend(n, a, b, 1);
    InPlaceAppend(n, a + b, c, 1 + 2 * n);
  }

  lemma SingleInPlace(n: nat, ps: seq<Problem>)
    requires |ps| <= 1
    ensures InPlace(n, ps)
  {
  }

  method Check(g: Graph, jsonValid: string -> bool) returns (problems: seq<Problem>)
    requires WellFormed(g)
    ensures problems == CheckSpec(g, jsonValid) && AllProblems(g, jsonValid, problems)
  {
    TopoCompleteIffAcyclic(g);
    CheckMeaning(g, jsonValid);
    hide AllProblems;
    var order, cycle := TopoOrder(g);
    problems := [];
    if cycle { problems := [CycleFound(g.N() - |order|, g.N())]; }
    var reach := ReachabilityProblems(g);
    problems := problems + reach;

    var perNode := NodeChecks(g, jsonValid);
    problems := problems + perNode;
  }

  method NodeChecks(g: Graph, jsonValid: string -> bool) returns (problems: seq<Problem>)
    requires WellFormed(g)
    ensures problems == NodeProblems(g, jsonValid, g.N())
  {
    var candidate := AnyOfCandidates(g);
    problems := [];
    for v := 0 to g.N()
      invariant problems == NodeProblems(g, jsonValid, v)
    {
      var found := CheckNode(g, jsonValid, candidate, v);
      problems := problems + found;
    }
  }

  /** Checks 3, 4 and 5 on one node. */
  method CheckNode(g: Graph, jsonValid: string -> bool, candidate: seq<bool>, v: nat)
    returns (found: seq<Problem>)
    requires WellFormed(g) && v < g.N() && |candidate| == g.N()
    requires candidate[v] <==> FeedsAnyOf(g, v)
    ensures found == ProblemsOf(g, jsonValid, v)
  {
    var n := g.nodes[v];
    found := [];
    if n.join.AnyOf? && |g.preds[v]| < 2 {
      found := found + [TooFewCandidates(v, |g.preds[v]|)];
    }
    if n.schema.Some? && |n.schema.value| > 0 && !jsonValid(n.schema.value) {
      found := found + [BadSchema(v)];
    }
    if n.sideEffect.Destructive? && candidate[v] {
      found := found + [DestructiveCandidate(v)];
    }
  }

  method AnyOfCandidates(g: Graph) returns (candidate: seq<bool>)
    requires WellFormed(g)
    ensures |candidate| == g.N()
    ensures forall v :: 0 <= v < g.N() ==> (candidate[v] <==> FeedsAnyOf(g, v))
  {
    candidate := seq(g.N(), _ => false);
    for j := 0 to g.N()
      invariant |candidate| == g.N()
      invariant forall v :: 0 <= v < g.N() ==>
        (candidate[v] <==> exists i :: 0 <= i < j && g.IsAny(i) && v in g.preds[i])
    {
      if g.IsAny(j) {
        ghost var was := candidate;
        for k := 0 to |g.preds[j]|
          invariant |candidate| == g.N()
          invariant forall v :: 0 <= v < g.N() ==> (candidate[v] <==> was[v] || v in g.preds[j][..k])
        {
          assert g.preds[j][k] in g.preds[j];
          assert g.preds[j][..k + 1] == g.preds[j][..k] + [g.preds[j][k]];
          candidate := candidate[g.preds[j][k] := true];
        }
        assert g.preds[j][..|g.preds[j]|] == g.preds[j];
      }
    }
  }

  // ---- main results ----------------------------------------------------------------------

  lemma {:induction false} AncestorEntry(g: Graph, rank: seq<nat>, v: nat)
    requires WellFormed(g) && IsRank(g, rank) && v < g.N()
    ensures FromEntry(g, v)
    decreases rank[v]
  {
    if g.preds[v] == [] {
      ReachSelf(g.succs, v);
    } else {
      var u := g.preds[v][0];
      AncestorEntry(g, rank, u);
      var e :| 0 <= e < |g.preds| && g.preds[e] == [] && Reaches(g.succs, e, u);
      EdgeBothWays(g, u, v);
      ReachStep(g.succs, e, u, v);
    }
  }

  ghost function MaxRank(rank: seq<nat>): (m: nat)
    ensures forall v :: 0 <= v < |rank| ==> rank[v] <= m
  {
    if |rank| == 0 then 0
    else var m := MaxRank(rank[..|rank| - 1]); if m < rank[|rank| - 1] then rank[|rank| - 1] else m
  }

  lemma {:induction false} DescendantExit(g: Graph, rank: seq<nat>, v: nat)
    requires WellFormed(g) && IsRank(g, rank) && v < g.N()
    ensures ToExit(g, v)
    decreases MaxRank(rank) - rank[v]
  {
    if g.succs[v] == [] {
      ReachSelf(g.succs, v);
    } else {
      var x := g.succs[v][0];
      assert x in g.succs[v];
      EdgeBothWays(g, v, x);
      DescendantExit(g, rank, x);
      var e :| 0 <= e < |g.succs| && g.succs[e] == [] && Reaches(g.succs, x, e);
      ReachesReversed(g, e, x);
      ReachStep(g.preds, e, x, v);
      ReachesReversed(g, e, v);
    }
  }

  /** On an acyclic graph the reachability check finds nothing: it never fires alone. */
  lemma AcyclicImpliesReachable(g: Graph, v: nat)
    requires WellFormed(g) && Acyclic(g) && v < g.N()
    ensures FromEntry(g, v) && ToExit(g, v)
  {
    var rank := AcyclicHasRank(g);
    AncestorEntry(g, rank, v);
    DescendantExit(g, rank, v);
  }

  lemma {:induction false} NoReachProblems(g: Graph, k: nat)
    requires WellFormed(g) && Acyclic(g) && k <= g.N()
    ensures ReachProblems(g, k) == []
  {
    hide FromEntry, ToExit, WellFormed, Acyclic;
    if k > 0 {
      NoReachProblems(g, k - 1);
      AcyclicImpliesReachable(g, k - 1);
    }
  }

  /** What the per-node checks accept. */
  ghost predicate NodeChecksPass(g: Graph, jsonValid: string -> bool, v: nat)
    requires WellFormed(g) && v < g.N()
  {
    && (g.IsAny(v) ==> |g.preds[v]| >= 2)
    && SchemaParses(g.nodes[v], jsonValid)
    && !(g.IsDestructive(v) && FeedsAnyOf(g, v))
  }

  lemma ProblemsOfEmpty(g: Graph, jsonValid: string -> bool, v: nat)
    requires WellFormed(g) && v < g.N()
    ensures |ProblemsOf(g, jsonValid, v)| == 0 <==> NodeChecksPass(g, jsonValid, v)
  {
  }

  lemma {:induction false} NodeProblemsEmpty(g: Graph, jsonValid: string -> bool, k: nat)
    requires WellFormed(g) && k <= g.N()
    ensures |NodeProblems(g, jsonValid, k)| == 0 <==>
      forall v :: 0 <= v < k ==> |ProblemsOf(g, jsonValid, v)| == 0
  {
    hide ProblemsOf;
    if k > 0 {
      NodeProblemsEmpty(g, jsonValid, k - 1);
    }
  }

  /** `Check` is silent exactly on the acyclic graphs whose nodes pass checks 3, 4 and 5. */
  lemma CheckSilentIff(g: Graph, jsonValid: string -> bool)
    requires WellFormed(g)
    ensures CheckSpec(g, jsonValid) == [] <==>
      Acyclic(g) && forall v :: 0 <= v < g.N() ==> NodeChecksPass(g, jsonValid, v)
  {
    NodeProblemsEmpty(g, jsonValid, g.N());
    forall v | 0 <= v < g.N()
      ensures |ProblemsOf(g, jsonValid, v)| == 0 <==> NodeChecksPass(g, jsonValid, v)
    {
      ProblemsOfEmpty(g, jsonValid, v);
    }
    if Acyclic(g) {
      NoReachProblems(g, g.N());
    }
  }
}
