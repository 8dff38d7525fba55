/** The order of the loop's two other scans (engine/scheduler/scheduler.go:182-222): promotions go in
    plan order; losers are looked at join by join, candidate by candidate, each in the state that the
    skips before it have left. */
module Scans {
  import opened Plans
  import opened Graphs
  import opened Lists
  import opened Traces
  import opened Machine

  /** Everything but states and trace stays. */
  predicate OnlyMoved(s: St, t: St) {
    && t.attempt == s.attempt && t.output == s.output && t.inFlight == s.inFlight && t.workers == s.workers
    && t.job == s.job && t.rounds == s.rounds && t.maxReady == s.maxReady
  }

  // ---- promotions ---------------------------------------------------------------------------------

  /** The join of a pending node is met: no predecessors, or one executed (any_of), or all executed or
      skipped (all_of). */
  ghost predicate Promotable(g: Graph, st: seq<NodeState>, v: nat)
    requires WellFormed(g) && |st| == g.N() && v < g.N()
  {
    && st[v] == Pending
    && if g.preds[v] == [] then true
       else if g.nodes[v].join == AnyOf then exists u :: u in g.preds[v] && st[u] == Executed
       else forall u :: u in g.preds[v] ==> st[u] == Executed || st[u] == Skipped
  }

  lemma PromotableMeans(g: Graph, st: seq<NodeState>, v: nat)
    requires WellFormed(g) && |st| == g.N() && v < g.N()
    ensures Promotable(g, st, v) <==> st[v].Pending? && DepsSatisfied(g, st, v)
  {
  }

  function PromoteMoves(vs: seq<nat>): seq<Move> {
    seq(|vs|, k requires 0 <= k < |vs| => Move(vs[k], Pending, Ready, DepsMet, ""))
  }

  /** t is s after exactly the nodes vs became ready, in that order. */
  ghost predicate MadeReady(s: St, t: St, vs: seq<nat>) {
    && OnlyMoved(s, t) && |t.state| == |s.state| && t.trace == s.trace + PromoteMoves(vs)
    && forall v :: 0 <= v < |s.state| ==> t.state[v] == if v in vs then Ready else s.state[v]
  }

  lemma MadeReadyFirst(g: Graph, s: St, v: nat, vs: seq<nat>, t: St)
    requires Shape(g, s) && v < g.N() && s.state[v] == Pending && MadeReady(PromoteOne(g, s, v), t, vs)
    ensures MadeReady(s, t, [v] + vs)
  {
    assert PromoteMoves([v] + vs) == [Move(v, Pending, Ready, DepsMet, "")] + PromoteMoves(vs);
    assert forall x: nat :: x in [v] + vs <==> x == v || x in vs;
    hide PromoteMoves;
  }

  lemma MadeReadyNone(s: St)
    ensures MadeReady(s, s, [])
  {
  }

  ghost predicate Promotes(g: Graph, st: seq<NodeState>, i: nat, vs: seq<nat>)
    requires WellFormed(g) && |st| == g.N()
  {
    Increasing(vs) && forall v: nat :: v in vs <==> i <= v < g.N() && Promotable(g, st, v)
  }

  /** A promotion makes nobody executed or skipped, so it decides no other one. */
  lemma PromotesFirst(g: Graph, s: St, i: nat, vs: seq<nat>)
    requires WellFormed(g) && Shape(g, s) && i < g.N() && Promotable(g, s.state, i)
    requires Promotes(g, PromoteOne(g, s, i).state, i + 1, vs)
    ensures Promotes(g, s.state, i, [i] + vs)
  {
    var t := PromoteOne(g, s, i).state;
    IncreasingFirst(i, vs);
    hide Increasing;
    forall v: nat | i < v < g.N()
      ensures Promotable(g, t, v) <==> Promotable(g, s.state, v)
    {
      assert forall u :: 0 <= u < g.N() ==> (t[u] == Executed <==> s.state[u] == Executed);
      assert forall u :: 0 <= u < g.N() ==> (t[u] == Skipped <==> s.state[u] == Skipped);
    }
    assert forall v: nat :: v in [i] + vs <==> v == i || v in vs;
  }

  lemma {:induction false} PromoteOrder(g: Graph, s: St, i: nat) returns (vs: seq<nat>)
    requires WellFormed(g) && Shape(g, s) && i <= g.N()
    ensures Promotes(g, s.state, i, vs) && MadeReady(s, PromoteFrom(g, s, i), vs)
    decreases g.N() - i
  {
    hide MadeReady, Promotable, DepsSatisfied, WellFormed;
    if i == g.N() {
      vs := [];
      MadeReadyNone(s);
    } else {
      PromotableMeans(g, s.state, i);
      if s.state[i].Pending? && DepsSatisfied(g, s.state, i) {
        var rest := PromoteOrder(g, PromoteOne(g, s, i), i + 1);
        vs := [i] + rest;
        PromotesFirst(g, s, i, rest);
        MadeReadyFirst(g, s, i, rest, PromoteFrom(g, s, i));
      } else {
        vs := PromoteOrder(g, s, i + 1);
      }
    }
  }

  /** The entry nodes, in plan order. */
  lemma {:induction false} SeedOrder(g: Graph, s: St, i: nat) returns (vs: seq<nat>)
    requires WellFormed(g) && Shape(g, s) && i <= g.N()
    requires forall v :: i <= v < g.N() ==> s.state[v] == Pending
    ensures Increasing(vs) && forall v: nat :: v in vs <==> i <= v < g.N() && g.preds[v] == []
    ensures MadeReady(s, SeedFrom(g, s, i), vs)
    decreases g.N() - i
  {
    assert |g.preds| == g.N();
    hide MadeReady, WellFormed;
    if i == g.N() {
      vs := [];
      MadeReadyNone(s);
    } else if g.preds[i] == [] {
      var rest := SeedOrder(g, PromoteOne(g, s, i), i + 1);
      vs := [i] + rest;
      IncreasingFirst(i, rest);
      hide Increasing;
      MadeReadyFirst(g, s, i, rest, SeedFrom(g, s, i));
      assert forall v: nat :: v in [i] + rest <==> v == i || v in rest;
    } else {
      vs := SeedOrder(g, s, i + 1);
    }
  }

  // ---- losers -------------------------------------------------------------------------------------

  /** v is unfinished, has not won, and nothing needs it: its any_of successors have an executed
      predecessor, its other successors are finished. */
  ghost predicate Loses(g: Graph, st: seq<NodeState>, v: nat, w: nat)
    requires WellFormed(g) && |st| == g.N() && v < g.N()
  {
    && v != w && st[v] !in {Executed, Failed, Cancelled, Skipped}
    && forall j :: j in g.succs[v] ==>
         if g.nodes[j].join == AnyOf then exists u :: u in g.preds[j] && st[u] == Executed
         else st[j] in {Executed, Failed, Cancelled, Skipped}
  }

  lemma LoserMeans(g: Graph, st: seq<NodeState>, v: nat, w: nat)
    requires WellFormed(g) && |st| == g.N() && v < g.N()
    ensures IsLoser(g, st, v, w) <==> Loses(g, st, v, w)
  {
    forall j | j in g.succs[v]
      ensures HasExecutedPred(g, st, j) <==> exists u :: u in g.preds[j] && st[u] == Executed
    {
    }
    hide HasExecutedPred;
  }

  /** The candidates in the order they are looked at: for every any_of join that w feeds, in edge order,
      its predecessors, in edge order. */
  function Lineup(g: Graph, w: nat, k: nat): seq<nat>
    requires WellFormed(g) && w < g.N() && k <= |g.succs[w]|
    decreases |g.succs[w]| - k
  {
    if k == |g.succs[w]| then []
    else
      var j := g.succs[w][k];
      assert j in g.succs[w];
      (if g.nodes[j].join == AnyOf then g.preds[j] else []) + Lineup(g, w, k + 1)
  }

  ghost predicate Listed(g: Graph, list: seq<nat>) {
    forall k :: 0 <= k < |list| ==> list[k] < g.N()
  }

  /** One scan of a list of candidates. */
  function SkipList(g: Graph, s: St, w: nat, list: seq<nat>): (r: St)
    requires WellFormed(g) && Shape(g, s) && Listed(g, list)
    ensures Shape(g, r)
    decreases |list|
  {
    if |list| == 0 then s
    else
      var t, v := SkipList(g, s, w, list[..|list| - 1]), list[|list| - 1];
      if IsLoser(g, t.state, v, w) then SkipOne(g, t, v) else t
  }

  lemma SkipListMore(g: Graph, s: St, w: nat, list: seq<nat>, v: nat)
    requires WellFormed(g) && Shape(g, s) && Listed(g, list) && v < g.N()
    ensures Listed(g, list + [v])
    ensures var t := SkipList(g, s, w, list);
      SkipList(g, s, w, list + [v]) == if IsLoser(g, t.state, v, w) then SkipOne(g, t, v) else t
  {
    assert (list + [v])[..|list|] == list;
  }

  lemma {:induction false} CandsInOrder(g: Graph, s: St, w: nat, list: seq<nat>, j: nat, k: nat)
    requires WellFormed(g) && Shape(g, s) && Listed(g, list) && j < g.N() && k <= |g.preds[j]|
    ensures Listed(g, list + g.preds[j][k..])
    ensures SkipCands(g, SkipList(g, s, w, list), w, j, k) == SkipList(g, s, w, list + g.preds[j][k..])
    decreases |g.preds[j]| - k
  {
    if k == |g.preds[j]| {
      assert list + g.preds[j][k..] == list;
    } else {
      var v := g.preds[j][k];
      assert v in g.preds[j];
      SkipListMore(g, s, w, list, v);
      hide SkipList, IsLoser, WellFormed;
      CandsInOrder(g, s, w, list + [v], j, k + 1);
      assert list + [v] + g.preds[j][k + 1..] == list + g.preds[j][k..];
    }
  }

  /** The candidates of w's k-th join, if it is any_of. */
  function Here(g: Graph, w: nat, k: nat): seq<nat>
    requires WellFormed(g) && w < g.N() && k < |g.succs[w]|
  {
    var j := g.succs[w][k];
    assert j in g.succs[w];
    if g.nodes[j].join == AnyOf then g.preds[j] else []
  }

  lemma JoinerInOrder(g: Graph, s: St, w: nat, list: seq<nat>, k: nat)
    requires WellFormed(g) && Shape(g, s) && Listed(g, list) && w < g.N() && k < |g.succs[w]|
    ensures Listed(g, list + Here(g, w, k)) && Lineup(g, w, k) == Here(g, w, k) + Lineup(g, w, k + 1)
    ensures SkipJoiners(g, SkipList(g, s, w, list), w, k) ==
      SkipJoiners(g, SkipList(g, s, w, list + Here(g, w, k)), w, k + 1)
  {
    var j := g.succs[w][k];
    assert j in g.succs[w];
    if g.IsAny(j) {
      CandsInOrder(g, s, w, list, j, 0);
      assert g.preds[j][0..] == Here(g, w, k);
    } else {
      assert list + Here(g, w, k) == list;
    }
    hide SkipList, SkipCands, WellFormed;
  }

  lemma {:induction false} JoinersInOrder(g: Graph, s: St, w: nat, list: seq<nat>, k: nat)
    requires WellFormed(g) && Shape(g, s) && Listed(g, list) && w < g.N() && k <= |g.succs[w]|
    ensures Listed(g, list + Lineup(g, w, k))
    ensures SkipJoiners(g, SkipList(g, s, w, list), w, k) == SkipList(g, s, w, list + Lineup(g, w, k))
    decreases |g.succs[w]| - k
  {
    if k == |g.succs[w]| {
      assert list + Lineup(g, w, k) == list;
    } else {
      JoinerInOrder(g, s, w, list, k);
      hide *;
      Regroup(list, Here(g, w, k), Lineup(g, w, k + 1));
      JoinersInOrder(g, s, w, list + Here(g, w, k), k + 1);
    }
  }

  // ---- what one scan does -------------------------------------------------------------------------

  /** The states once the nodes of `gone` are skipped. */
  function Without(st: seq<NodeState>, gone: set<nat>): (r: seq<NodeState>)
    ensures |r| == |st|
  {
    seq(|st|, v requires 0 <= v < |st| => if v in gone then Skipped else st[v])
  }

  /** The nodes skipped at positions ps before position p. */
  ghost function GoneBefore(list: seq<nat>, ps: seq<nat>, p: nat): set<nat>
    requires p <= |list|
  {
    set q: nat | q < p && q in ps :: list[q]
  }

  function SkipMoves(st: seq<NodeState>, list: seq<nat>, ps: seq<nat>): seq<Move>
    requires forall i :: 0 <= i < |ps| ==> ps[i] < |list| && list[ps[i]] < |st|
  {
    seq(|ps|, i requires 0 <= i < |ps| => Move(list[ps[i]], st[list[ps[i]]], Skipped, Skip, ""))
  }

  /** t is s after the candidates at positions ps of the list were skipped, in that order: those that
      were losers when they were looked at. */
  ghost predicate Skips(g: Graph, s: St, w: nat, list: seq<nat>, ps: seq<nat>, t: St)
    requires WellFormed(g) && Shape(g, s) && Listed(g, list)
  {
    && Increasing(ps) && (forall i :: 0 <= i < |ps| ==> ps[i] < |list|)
    && (forall p: nat :: p < |list| ==>
          (p in ps <==> Loses(g, Without(s.state, GoneBefore(list, ps, p)), list[p], w)))
    && OnlyMoved(s, t) && t.state == Without(s.state, GoneBefore(list, ps, |list|))
    && t.trace == s.trace + SkipMoves(s.state, list, ps)
  }

  lemma GoneMore(list: seq<nat>, ps: seq<nat>, v: nat, p: nat)
    requires p <= |list| && forall i :: 0 <= i < |ps| ==> ps[i] < |list|
    ensures GoneBefore(list + [v], ps, p) == GoneBefore(list, ps, p)
    ensures GoneBefore(list + [v], ps + [|list|], p) == GoneBefore(list, ps, p)
    ensures GoneBefore(list + [v], ps, |list| + 1) == GoneBefore(list, ps, |list|)
    ensures GoneBefore(list + [v], ps + [|list|], |list| + 1) == GoneBefore(list, ps, |list|) + {v}
  {
    assert |list| !in ps;
    assert forall q: nat :: q in ps + [|list|] <==> q in ps || q == |list|;
    assert forall q: nat :: q < |list| ==> (list + [v])[q] == list[q];
    assert (list + [v])[|list|] == v;
  }

  /** The positions of the first |list| candidates are decided as before. */
  lemma DecidedBefore(g: Graph, st: seq<NodeState>, w: nat, list: seq<nat>, ps: seq<nat>, more: seq<nat>, v: nat)
    requires WellFormed(g) && |st| == g.N() && Listed(g, list) && v < g.N()
    requires forall i :: 0 <= i < |ps| ==> ps[i] < |list|
    requires more == ps || more == ps + [|list|]
    requires forall p: nat :: p < |list| ==> (p in ps <==> Loses(g, Without(st, GoneBefore(list, ps, p)), list[p], w))
    ensures Listed(g, list + [v])
    ensures forall p: nat :: p < |list| ==>
      (p in more <==> Loses(g, Without(st, GoneBefore(list + [v], more, p)), (list + [v])[p], w))
  {
    hide Loses, GoneBefore, WellFormed, Without;
    forall p: nat | p < |list|
      ensures p in more <==> Loses(g, Without(st, GoneBefore(list + [v], more, p)), (list + [v])[p], w)
    {
      GoneMore(list, ps, v, p);
    }
  }

  lemma SkipsPass(g: Graph, s: St, w: nat, list: seq<nat>, ps: seq<nat>, t: St, v: nat)
    requires WellFormed(g) && Shape(g, s) && Shape(g, t) && Listed(g, list) && v < g.N() && Skips(g, s, w, list, ps, t)
    requires !Loses(g, t.state, v, w)
    ensures Listed(g, list + [v]) && Skips(g, s, w, list + [v], ps, t)
  {
    GoneMore(list, ps, v, |list|);
    DecidedBefore(g, s.state, w, list, ps, ps, v);
    assert SkipMoves(s.state, list + [v], ps) == SkipMoves(s.state, list, ps);
    hide Loses, GoneBefore, WellFormed, SkipMoves, Without, Increasing, OnlyMoved, Listed;
    assert |list| !in ps && (list + [v])[|list|] == v;
  }

  lemma SkipsTake(g: Graph, s: St, w: nat, list: seq<nat>, ps: seq<nat>, t: St, v: nat)
    requires WellFormed(g) && Shape(g, s) && Shape(g, t) && Listed(g, list) && v < g.N() && Skips(g, s, w, list, ps, t)
    requires Loses(g, t.state, v, w)
    ensures Listed(g, list + [v]) && Skips(g, s, w, list + [v], ps + [|list|], SkipOne(g, t, v))
  {
    GoneMore(list, ps, v, |list|);
    assert t.state[v] == s.state[v];
    var more := ps + [|list|];
    DecidedBefore(g, s.state, w, list, ps, more, v);
    assert SkipMoves(s.state, list + [v], more) ==
      SkipMoves(s.state, list, ps) + [Move(v, s.state[v], Skipped, Skip, "")];
    assert SkipOne(g, t, v).state == Without(s.state, GoneBefore(list, ps, |list|) + {v});
    hide Loses, GoneBefore, WellFormed, SkipMoves, Without;
    assert (list + [v])[|list|] == v;
  }

  lemma {:induction false} SkipListMeaning(g: Graph, s: St, w: nat, list: seq<nat>) returns (ps: seq<nat>)
    requires WellFormed(g) && Shape(g, s) && Listed(g, list)
    ensures Skips(g, s, w, list, ps, SkipList(g, s, w, list))
    decreases |list|
  {
    if |list| == 0 {
      ps := [];
      assert GoneBefore(list, ps, 0) == {};
      assert Without(s.state, {}) == s.state;
    } else {
      var init, v := list[..|list| - 1], list[|list| - 1];
      SplitLast(list);
      var t := SkipList(g, s, w, init);
      ps := SkipListMeaning(g, s, w, init);
      LoserMeans(g, t.state, v, w);
      hide Skips, Loses, IsLoser, WellFormed;
      if Loses(g, t.state, v, w) {
        SkipsTake(g, s, w, init, ps, t, v);
        ps := ps + [|init|];
      } else {
        SkipsPass(g, s, w, init, ps, t, v);
      }
    }
  }

  /** `skipLosers` looks at the candidates in the order of the line-up and skips those that are losers
      when their turn comes. */
  lemma SkipOrder(g: Graph, s: St, w: nat) returns (ps: seq<nat>)
    requires WellFormed(g) && Shape(g, s) && w < g.N()
    ensures Listed(g, Lineup(g, w, 0)) && Skips(g, s, w, Lineup(g, w, 0), ps, SkipJoiners(g, s, w, 0))
  {
    JoinersInOrder(g, s, w, [], 0);
    assert [] + Lineup(g, w, 0) == Lineup(g, w, 0);
    hide Skips, SkipJoiners, Lineup;
    ps := SkipListMeaning(g, s, w, Lineup(g, w, 0));
  }
}
