/** `TopoOrder` (engine/validate/validate.go:57-109): Kahn's algorithm with ties broken by
    plan order. The method is proved equal to a greedy specification, and the greedy order
    is characterised: which nodes it holds, in what order, and that it is the least one. */
module Topo {
  import opened Graphs

  // ---- the greedy specification ----------------------------------------------

  /** v is not emitted yet and all its predecessors are. */
  predicate Candidate(g: Graph, done: seq<nat>, v: nat)
    requires WellFormed(g)
  {
    v < g.N() && v !in done && forall u :: u in g.preds[v] ==> u in done
  }

  /** The first candidate in plan order from position i on, or N() when there is none. */
  function FirstCandidate(g: Graph, done: seq<nat>, i: nat): (v: nat)
    requires WellFormed(g) && i <= g.N()
    ensures i <= v <= g.N()
    ensures v < g.N() ==> Candidate(g, done, v)
    ensures forall x :: i <= x < v ==> !Candidate(g, done, x)
    decreases g.N() - i
  {
    if i == g.N() || Candidate(g, done, i) then i else FirstCandidate(g, done, i + 1)
  }

  ghost function Unemitted(g: Graph, done: seq<nat>): set<nat> {
    set v | 0 <= v < g.N() && v !in done
  }

  ghost function Greedy(g: Graph, done: seq<nat>): seq<nat>
    requires WellFormed(g)
    decreases Unemitted(g, done)
  {
    var v := FirstCandidate(g, done, 0);
    if v == g.N() then done
    else
      assert v in Unemitted(g, done) && v !in Unemitted(g, done + [v]);
      Greedy(g, done + [v])
  }

  /** Every node at most once, and only after all of its predecessors. */
  ghost predicate Ordered(g: Graph, o: seq<nat>)
    requires WellFormed(g)
  {
    && (forall i :: 0 <= i < |o| ==> o[i] < g.N())
    && (forall i, j :: 0 <= i < j < |o| ==> o[i] != o[j])
    && (forall i, u :: 0 <= i < |o| && u in g.preds[o[i]] ==> u in o[..i])
  }

  /** A topological order of the whole graph. */
  ghost predicate IsTopological(g: Graph, o: seq<nat>)
    requires WellFormed(g)
  {
    Ordered(g, o) && |o| == g.N()
  }

  lemma {:induction false} GreedyOrdered(g: Graph, done: seq<nat>)
    requires WellFormed(g) && Ordered(g, done)
    ensures Ordered(g, Greedy(g, done)) && done <= Greedy(g, done)
    ensures forall v :: !Candidate(g, Greedy(g, done), v)
    decreases Unemitted(g, done)
  {
    var v := FirstCandidate(g, done, 0);
    if v < g.N() {
      assert v in Unemitted(g, done) && v !in Unemitted(g, done + [v]);
      var next := done + [v];
      forall i, u | 0 <= i < |next| && u in g.preds[next[i]]
        ensures u in next[..i]
      {
        if i < |done| {
          assert next[..i] == done[..i];
        } else {
          assert next[..i] == done;
        }
      }
      GreedyOrdered(g, next);
    }
  }

  /** The order `TopoOrder` computes. */
  ghost function TopoSpec(g: Graph): seq<nat>
    requires WellFormed(g)
  {
    Greedy(g, [])
  }

  // ---- cycles ----------------------------------------------------------------

  /** In an ordered sequence, everything strictly before an emitted node was emitted earlier. */
  lemma {:induction false} WalkStaysEarlier(g: Graph, o: seq<nat>, w: seq<nat>, j: nat)
    requires WellFormed(g) && Ordered(g, o) && IsWalk(g.succs, w)
    requires j < |o| && o[j] == w[|w| - 1]
    ensures exists i :: 0 <= i <= j && o[i] == w[0] && (|w| >= 2 ==> i < j)
    decreases |w|
  {
    if |w| >= 2 {
      var k := |w| - 2;
      assert w[k + 1] in g.succs[w[k]];
      EdgeBothWays(g, w[k], w[k + 1]);
      var i :| 0 <= i < |o[..j]| && o[..j][i] == w[k];
      assert IsWalk(g.succs, w[..k + 1]);
      WalkStaysEarlier(g, o, w[..k + 1], i);
    }
  }

  lemma CyclicNeverEmitted(g: Graph, o: seq<nat>, c: nat, v: nat)
    requires WellFormed(g) && Ordered(g, o) && OnCycle(g, c) && Reaches(g.succs, c, v)
    ensures v !in o
  {
    if v in o {
      var j :| 0 <= j < |o| && o[j] == v;
      var w :| WalkFromTo(g.succs, w, c, v);
      WalkStaysEarlier(g, o, w, j);
      var i :| 0 <= i <= j && o[i] == c;
      var loop :| WalkFromTo(g.succs, loop, c, c) && |loop| >= 2;
      WalkStaysEarlier(g, o, loop, i);
    }
  }

  /** A stuck node has a stuck predecessor, so stuck nodes have backward walks of any length. */
  lemma {:induction false} BackWalk(g: Graph, o: seq<nat>, v: nat, len: nat) returns (w: seq<nat>)
    requires WellFormed(g) && v < g.N() && v !in o
    requires forall x :: !Candidate(g, o, x)
    ensures IsWalk(g.succs, w) && |w| == len + 1 && w[len] == v
    decreases len
  {
    if len == 0 {
      w := [v];
    } else {
      assert !Candidate(g, o, v);
      var u :| u in g.preds[v] && u !in o;
      EdgeBothWays(g, u, v);
      var w' := BackWalk(g, o, u, len - 1);
      w := w' + [v];
    }
  }

  lemma {:induction false} DistinctIsShort(w: seq<nat>, n: nat)
    requires forall i :: 0 <= i < |w| ==> w[i] < n
    requires forall i, j :: 0 <= i < j < |w| ==> w[i] != w[j]
    ensures |w| <= n
    ensures |w| == n ==> forall v :: 0 <= v < n ==> v in w
    decreases n
  {
    if |w| > 0 {
      assert w[0] < n;
      if n - 1 in w {
        var k :| 0 <= k < |w| && w[k] == n - 1;
        var rest := w[..k] + w[k + 1..];
        assert forall i :: 0 <= i < |rest| ==> rest[i] == w[if i < k then i else i + 1];
        assert forall i :: 0 <= i < |rest| ==> rest[i] < n - 1;
        DistinctIsShort(rest, n - 1);
        forall v | 0 <= v < n && |w| == n
          ensures v in w
        {
          if v < n - 1 { assert v in rest; }
        }
      } else {
        assert forall i :: 0 <= i < |w| ==> w[i] in w;
        DistinctIsShort(w, n - 1);
      }
    }
  }

  lemma StuckBehindCycle(g: Graph, o: seq<nat>, v: nat) returns (c: nat)
    requires WellFormed(g) && v < g.N() && v !in o
    requires forall x :: !Candidate(g, o, x)
    ensures OnCycle(g, c) && Reaches(g.succs, c, v)
  {
    var w := BackWalk(g, o, v, g.N());
    if forall i, j :: 0 <= i < j < |w| ==> w[i] != w[j] {
      DistinctIsShort(w, g.N());
      assert false;
    }
    var i, j :| 0 <= i < j < |w| && w[i] == w[j];
    c := w[i];
    assert WalkFromTo(g.succs, w[i..j + 1], c, c);
    assert WalkFromTo(g.succs, w[i..], c, v);
  }

  // ---- the main results about the order ----------------------------------------

  /** The order holds exactly the nodes that no cycle reaches, each after its predecessors. */
  lemma TopoPrefix(g: Graph)
    requires WellFormed(g)
    ensures Ordered(g, TopoSpec(g))
    ensures forall v: nat :: v in TopoSpec(g) <==>
      v < g.N() && !exists c :: OnCycle(g, c) && Reaches(g.succs, c, v)
  {
    var o := TopoSpec(g);
    GreedyOrdered(g, []);
    forall v: nat
      ensures v in o <==> v < g.N() && !exists c :: OnCycle(g, c) && Reaches(g.succs, c, v)
    {
      if v in o {
        forall c | OnCycle(g, c) && Reaches(g.succs, c, v)
          ensures false
        {
          CyclicNeverEmitted(g, o, c, v);
        }
      } else if v < g.N() {
        var c := StuckBehindCycle(g, o, v);
      }
    }
  }

  /** Ordering every node succeeds exactly when there is no cycle. */
  lemma TopoCompleteIffAcyclic(g: Graph)
    requires WellFormed(g)
    ensures |TopoSpec(g)| <= g.N()
    ensures |TopoSpec(g)| == g.N() <==> Acyclic(g)
  {
    var o := TopoSpec(g);
    TopoPrefix(g);
    DistinctIsShort(o, g.N());
    if |o| == g.N() {
      forall v: nat
        ensures !OnCycle(g, v)
      {
        if OnCycle(g, v) {
          var w :| WalkFromTo(g.succs, w, v, v) && |w| >= 2;
          ReachSelf(g.succs, v);
          CyclicNeverEmitted(g, o, v, v);
        }
      }
    } else if Acyclic(g) {
      if forall v: nat :: v < g.N() ==> v in o {
        CoverIsLong(o, g.N());
      }
    }
  }

  lemma {:induction false} CoverIsLong(o: seq<nat>, n: nat)
    requires forall v: nat :: v < n ==> v in o
    ensures |o| >= n
    decreases n
  {
    if n > 0 {
      assert n - 1 in o;
      var k :| 0 <= k < |o| && o[k] == n - 1;
      var rest := o[..k] + o[k + 1..];
      forall v: nat | v < n - 1
        ensures v in rest
      {
        assert v in o;
        var i :| 0 <= i < |o| && o[i] == v;
        assert rest[if i < k then i else i - 1] == v;
      }
      CoverIsLong(rest, n - 1);
    }
  }

  /** a is a prefix of b, or smaller than b at the first position where they differ. */
  predicate LexLeq(a: seq<nat>, b: seq<nat>) {
    || a <= b
    || (exists k :: 0 <= k < |a| && k < |b| && a[..k] == b[..k] && a[k] < b[k])
  }

  /** An order that cannot be continued: every node left out has a predecessor left out. */
  ghost predicate IsMaximal(g: Graph, o: seq<nat>)
    requires WellFormed(g)
  {
    Ordered(g, o) && forall v: nat :: v < g.N() && v !in o ==> exists u :: u in g.preds[v] && u !in o
  }

  lemma MaximalStops(g: Graph, o: seq<nat>)
    requires WellFormed(g) && IsMaximal(g, o)
    ensures forall v :: !Candidate(g, o, v)
  {
  }

  /** A maximal order that starts with `done` continues with a candidate. */
  lemma NextIsCandidate(g: Graph, done: seq<nat>, o: seq<nat>)
    requires WellFormed(g) && Ordered(g, done) && IsMaximal(g, o) && done <= o
    requires exists v :: Candidate(g, done, v)
    ensures |done| < |o| && Candidate(g, done, o[|done|]) && Ordered(g, o[..|done| + 1])
  {
    var v: nat :| Candidate(g, done, v);
    MaximalStops(g, o);
    assert |done| == |o| ==> done == o;
    assert o[..|done|] == done;
    OrderedPrefix(g, o, |done| + 1);
  }

  lemma {:induction false} GreedyLeast(g: Graph, done: seq<nat>, o: seq<nat>)
    requires WellFormed(g) && Ordered(g, done) && IsMaximal(g, o) && done <= o
    ensures LexLeq(Greedy(g, done), o)
    decreases Unemitted(g, done)
  {
    var v := FirstCandidate(g, done, 0);
    if v < g.N() {
      NextIsCandidate(g, done, o);
      hide Ordered, Candidate;
      var k, next := |done|, done + [v];
      assert v <= o[k];
      NextStaysOrdered(g, done, v);
      if v == o[k] {
        assert v in Unemitted(g, done) && v !in Unemitted(g, next);
        assert next == o[..k + 1];
        GreedyLeast(g, next, o);
      } else {
        GreedyOrdered(g, next);
        assert Greedy(g, done)[..k] == next[..k] == o[..k] && Greedy(g, done)[k] == v;
      }
    }
  }

  lemma OrderedPrefix(g: Graph, o: seq<nat>, k: nat)
    requires WellFormed(g) && Ordered(g, o) && k <= |o|
    ensures Ordered(g, o[..k])
  {
    forall i, u | 0 <= i < k && u in g.preds[o[..k][i]]
      ensures u in o[..k][..i]
    {
      assert o[..k][..i] == o[..i];
    }
  }

  lemma NextStaysOrdered(g: Graph, done: seq<nat>, v: nat)
    requires WellFormed(g) && Ordered(g, done) && Candidate(g, done, v)
    ensures Ordered(g, done + [v])
  {
    var next := done + [v];
    forall i, u | 0 <= i < |next| && u in g.preds[next[i]]
      ensures u in next[..i]
    {
      assert next[..i] == if i < |done| then done[..i] else done;
    }
  }

  lemma DistinctCovers(g: Graph, o: seq<nat>)
    requires WellFormed(g) && IsTopological(g, o)
    ensures IsMaximal(g, o)
  {
    DistinctIsShort(o, g.N());
  }

  /** With or without cycles, the result is the lexicographically least of the orders that cannot be
      continued. */
  lemma TopoLeastMaximal(g: Graph, o: seq<nat>)
    requires WellFormed(g) && IsMaximal(g, o)
    ensures IsMaximal(g, TopoSpec(g)) && LexLeq(TopoSpec(g), o)
  {
    GreedyOrdered(g, []);
    assert forall v: nat :: v < g.N() && v !in TopoSpec(g) ==> !Candidate(g, TopoSpec(g), v);
    GreedyLeast(g, [], o);
  }

  /** On an acyclic graph the result is the lexicographically least topological order. */
  lemma TopoLeast(g: Graph, o: seq<nat>)
    requires WellFormed(g) && Acyclic(g) && IsTopological(g, o)
    ensures IsTopological(g, TopoSpec(g)) && LexLeq(TopoSpec(g), o)
  {
    TopoPrefix(g);
    TopoCompleteIffAcyclic(g);
    DistinctCovers(g, o);
    GreedyLeast(g, [], o);
  }

  // ---- ranks: induction along the edges of an acyclic graph --------------------

  /** A rank grows strictly along every edge. */
  ghost predicate IsRank(g: Graph, rank: seq<nat>)
    requires WellFormed(g)
  {
    |rank| == g.N() && forall v, u :: 0 <= v < g.N() && u in g.preds[v] ==> rank[u] < rank[v]
  }

  ghost function PositionIn(o: seq<nat>, v: nat): (i: nat)
    requires v in o
    ensures i < |o| && o[i] == v
  {
    var i :| 0 <= i < |o| && o[i] == v;
    i
  }

  lemma AcyclicHasRank(g: Graph) returns (rank: seq<nat>)
    requires WellFormed(g) && Acyclic(g)
    ensures IsRank(g, rank)
  {
    var o := TopoSpec(g);
    TopoPrefix(g);
    TopoCompleteIffAcyclic(g);
    DistinctIsShort(o, g.N());
    rank := seq(g.N(), v requires 0 <= v < g.N() => PositionIn(o, v));
    forall v, u | 0 <= v < g.N() && u in g.preds[v]
      ensures rank[u] < rank[v]
    {
      assert u in o[..rank[v]];
      var i :| 0 <= i < rank[v] && o[i] == u;
      assert o[rank[u]] == u;
    }
  }

  // ---- the algorithm -----------------------------------------------------------

  predicate Sorted(s: seq<nat>) {
    forall i, j :: 0 <= i < j < |s| ==> s[i] <= s[j]
  }

  /** The first k elements are in order, but for one that is on its way down. */
  ghost predicate SortedBut(s: seq<nat>, k: nat, i: nat) {
    k <= |s| && forall x, y :: 0 <= x < y < k && y != i ==> s[x] <= s[y]
  }

  function Swapped(s: seq<nat>, i: nat): (t: seq<nat>)
    requires 0 < i < |s|
    ensures multiset(t) == multiset(s)
  {
    s[i - 1 := s[i]][i := s[i - 1]]
  }

  lemma SwapDown(s: seq<nat>, k: nat, i: nat)
    requires 0 < i < k && SortedBut(s, k, i) && s[i - 1] > s[i]
    ensures SortedBut(Swapped(s, i), k, i - 1)
  {
  }

  lemma SinkStarts(s: seq<nat>, k: nat)
    requires k < |s| && SortedBut(s, k, k)
    ensures SortedBut(s, k + 1, k)
  {
  }

  lemma SinkEnds(s: seq<nat>, k: nat, i: nat)
    requires i <= k < |s| && SortedBut(s, k + 1, i) && (i > 0 ==> s[i - 1] <= s[i])
    ensures SortedBut(s, k + 1, k + 1)
  {
  }

  method SwapCells(queue: array<nat>, i: nat)
    requires 0 < i < queue.Length
    modifies queue
    ensures queue[..] == Swapped(old(queue[..]), i)
  {
    queue[i - 1], queue[i] := queue[i], queue[i - 1];
  }

  /** The queue sort, in place: a stable insertion sort by plan position. */
  method SortByPlanOrder(queue: array<nat>)
    modifies queue
    ensures Sorted(queue[..]) && multiset(queue[..]) == multiset(old(queue[..]))
  {
    for k := 0 to queue.Length
      invariant SortedBut(queue[..], k, k) && multiset(queue[..]) == multiset(old(queue[..]))
    {
      SinkInto(queue, k);
    }
  }

  method SinkInto(queue: array<nat>, k: nat)
    requires k < queue.Length && SortedBut(queue[..], k, k)
    modifies queue
    ensures SortedBut(queue[..], k + 1, k + 1) && multiset(queue[..]) == multiset(old(queue[..]))
  {
    hide Swapped, SortedBut;
    SinkStarts(queue[..], k);
    var i := k;
    while i > 0 && queue[i - 1] > queue[i]
      invariant 0 <= i <= k && SortedBut(queue[..], k + 1, i)
      invariant multiset(queue[..]) == multiset(old(queue[..]))
    {
      SwapDown(queue[..], k + 1, i);
      SwapCells(queue, i);
      i := i - 1;
    }
    SinkEnds(queue[..], k, i);
  }

  /** The queue after its cells have been sorted. */
  method SortedQueue(queue: seq<nat>) returns (r: seq<nat>)
    ensures Sorted(r) && multiset(r) == multiset(queue)
  {
    var cells := new nat[|queue|](i requires 0 <= i < |queue| => queue[i]);
    assert cells[..] == queue;
    SortByPlanOrder(cells);
    r := cells[..];
  }

  /** How many predecessor entries have not been emitted yet. */
  function Unmet(ps: seq<nat>, done: seq<nat>): nat {
    if |ps| == 0 then 0
    else Unmet(ps[..|ps| - 1], done) + (if ps[|ps| - 1] in done then 0 else 1)
  }

  lemma {:induction false} UnmetEmit(ps: seq<nat>, done: seq<nat>, v: nat)
    requires v !in done
    ensures Unmet(ps, done) == Unmet(ps, done + [v]) + Mult(ps, v)
  {
    if |ps| > 0 {
      UnmetEmit(ps[..|ps| - 1], done, v);
      assert ps == ps[..|ps| - 1] + [ps[|ps| - 1]];
    }
  }

  lemma {:induction false} UnmetZero(ps: seq<nat>, done: seq<nat>)
    ensures Unmet(ps, done) == 0 <==> forall u :: u in ps ==> u in done
    ensures Unmet(ps, done) <= |ps|
    ensures done == [] ==> Unmet(ps, done) == |ps|
  {
    if |ps| > 0 {
      UnmetZero(ps[..|ps| - 1], done);
      assert ps == ps[..|ps| - 1] + [ps[|ps| - 1]];
    }
  }

  /** The queue holds each node that is not emitted and has no unmet predecessor, once. */
  ghost predicate QueueExact(n: nat, queue: seq<nat>, order: seq<nat>, indeg: seq<int>)
    requires |indeg| == n
  {
    forall x: nat :: Mult(queue, x) == if x < n && x !in order && indeg[x] == 0 then 1 else 0
  }

  ghost predicate CountsExact(g: Graph, order: seq<nat>, indeg: seq<int>)
    requires WellFormed(g)
  {
    |indeg| == g.N() && forall x :: 0 <= x < g.N() ==> indeg[x] == Unmet(g.preds[x], order)
  }

  method TopoOrder(g: Graph) returns (order: seq<nat>, cycle: bool)
    requires WellFormed(g)
    ensures order == TopoSpec(g)
    ensures cycle <==> |order| != g.N()
  {
    var indeg, queue := InitialQueue(g);
    order := [];
    while |queue| > 0
      invariant Ordered(g, order) && CountsExact(g, order, indeg)
      invariant QueueExact(g.N(), queue, order, indeg)
      invariant Greedy(g, order) == TopoSpec(g)
      decreases Unemitted(g, order)
    {
      queue := SortedQueue(queue);
      var id := queue[0];
      HeadIsFirstCandidate(g, order, queue, indeg);
      PopHead(g, order, queue, indeg);
      queue, indeg := Release(g, order, id, queue[1..], indeg);
      order := order + [id];
    }
    StuckIsDone(g, order, indeg);
    cycle := |order| != g.N();
  }

  method InitialQueue(g: Graph) returns (indeg: seq<int>, queue: seq<nat>)
    requires WellFormed(g)
    ensures CountsExact(g, [], indeg) && QueueExact(g.N(), queue, [], indeg)
  {
    indeg := [];
    for v := 0 to g.N()
      invariant |indeg| == v
      invariant forall x :: 0 <= x < v ==> indeg[x] == Unmet(g.preds[x], [])
    {
      UnmetZero(g.preds[v], []);
      indeg := indeg + [|g.preds[v]|];
    }
    queue := [];
    for v := 0 to g.N()
      invariant forall x: nat :: Mult(queue, x) == if x < v && indeg[x] == 0 then 1 else 0
    {
      if indeg[v] == 0 { queue := queue + [v]; }
    }
  }

  lemma HeadIsFirstCandidate(g: Graph, order: seq<nat>, queue: seq<nat>, indeg: seq<int>)
    requires WellFormed(g) && |queue| > 0 && Sorted(queue)
    requires CountsExact(g, order, indeg) && QueueExact(g.N(), queue, order, indeg)
    ensures FirstCandidate(g, order, 0) == queue[0] && queue[0] < g.N()
  {
    forall x | 0 <= x < g.N()
      ensures Candidate(g, order, x) <==> x in queue
    {
      UnmetZero(g.preds[x], order);
      assert x in queue <==> Mult(queue, x) > 0;
    }
    assert queue[0] in queue && Mult(queue, queue[0]) > 0;
    var f := FirstCandidate(g, order, 0);
    assert f in queue;
    var i :| 0 <= i < |queue| && queue[i] == f;
    assert queue[0] <= queue[i];
  }

  lemma PopExact(n: nat, queue: seq<nat>, order: seq<nat>, indeg: seq<int>)
    requires |queue| > 0 && |indeg| == n && QueueExact(n, queue, order, indeg)
    ensures QueueExact(n, queue[1..], order + [queue[0]], indeg)
  {
    var id := queue[0];
    assert queue == [id] + queue[1..];
    assert multiset(queue) == multiset{id} + multiset(queue[1..]);
    forall x: nat
      ensures Mult(queue[1..], x) == if x < n && x !in order + [id] && indeg[x] == 0 then 1 else 0
    {
      assert Mult(queue, x) == Mult(queue[1..], x) + if x == id then 1 else 0;
      assert x in order + [id] <==> x in order || x == id;
    }
  }

  lemma PopHead(g: Graph, order: seq<nat>, queue: seq<nat>, indeg: seq<int>)
    requires WellFormed(g) && Ordered(g, order) && |queue| > 0 && |indeg| == g.N()
    requires FirstCandidate(g, order, 0) == queue[0] < g.N()
    requires QueueExact(g.N(), queue, order, indeg)
    ensures QueueExact(g.N(), queue[1..], order + [queue[0]], indeg)
    ensures Ordered(g, order + [queue[0]])
    ensures Greedy(g, order) == Greedy(g, order + [queue[0]])
    ensures Unemitted(g, order + [queue[0]]) < Unemitted(g, order)
  {
    var id := queue[0];
    PopExact(g.N(), queue, order, indeg);
    assert Mult(queue, id) > 0;
    NextStaysOrdered(g, order, id);
    assert id in Unemitted(g, order) && id !in Unemitted(g, order + [id]);
  }

  lemma StuckIsDone(g: Graph, order: seq<nat>, indeg: seq<int>)
    requires WellFormed(g) && CountsExact(g, order, indeg)
    requires QueueExact(g.N(), [], order, indeg)
    ensures Greedy(g, order) == order
  {
    forall x | 0 <= x < g.N()
      ensures !Candidate(g, order, x)
    {
      UnmetZero(g.preds[x], order);
      assert Mult([], x) == 0;
    }
    assert FirstCandidate(g, order, 0) == g.N();
  }

  /** The inner loop of `TopoOrder`: count `id` off at its successors, queueing those that
      have no unmet predecessor left. */
  method Release(g: Graph, ghost before: seq<nat>, id: nat, queue0: seq<nat>, indeg0: seq<int>)
    returns (queue: seq<nat>, indeg: seq<int>)
    requires WellFormed(g) && Ordered(g, before) && Candidate(g, before, id)
    requires CountsExact(g, before, indeg0)
    requires QueueExact(g.N(), queue0, before + [id], indeg0)
    ensures CountsExact(g, before + [id], indeg)
    ensures QueueExact(g.N(), queue, before + [id], indeg)
  {
    queue, indeg := queue0, indeg0;
    var ss := g.succs[id];
    for k := 0 to |ss|
      invariant |indeg| == g.N()
      invariant forall x :: 0 <= x < g.N() ==> indeg[x] == indeg0[x] - Mult(ss[..k], x)
      invariant QueueExact(g.N(), queue, before + [id], indeg)
    {
      var s := ss[k];
      assert ss[..k + 1] == ss[..k] + [s];
      assert s in ss;
      SuccessorNotEmitted(g, before, id, s);
      assert indeg[s] > 0 by {
        assert ss == ss[..k] + [s] + ss[k + 1..];
        UnmetEmit(g.preds[s], before, id);
        assert Mult(g.preds[s], id) == Mult(ss, s);
      }
      indeg := indeg[s := indeg[s] - 1];
      if indeg[s] == 0 { queue := queue + [s]; }
    }
    forall x | 0 <= x < g.N()
      ensures indeg[x] == Unmet(g.preds[x], before + [id])
    {
      UnmetEmit(g.preds[x], before, id);
      assert ss[..|ss|] == ss;
      assert Mult(g.preds[x], id) == Mult(ss, x);
    }
  }

  lemma SuccessorNotEmitted(g: Graph, before: seq<nat>, id: nat, s: nat)
    requires WellFormed(g) && Ordered(g, before) && Candidate(g, before, id) && s in g.succs[id]
    ensures s < g.N() && s !in before && s != id
  {
    EdgeBothWays(g, id, s);
  }
}
