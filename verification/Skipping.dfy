/** any_of resolution (engine/scheduler/scheduler.go:192-222, 436-462). The code says that the
    siblings of a winner are skipped (engine/plan/types.go:22). Which ones are, exactly; and for
    which plans none is ever left running without a purpose. */
module Skipping {
  import opened Plans
  import opened Graphs
  import opened Lists
  import opened Machine
  import opened Invariants
  import opened LoopHead

  // ---- one winner -------------------------------------------------------------------------------

  /** Skipping only shrinks what is needed: it ends joiners and takes no winner away. */
  lemma NeedShrinks(g: Graph, st: seq<NodeState>, x: nat, v: nat)
    requires WellFormed(g) && |st| == g.N() && x < g.N() && v < g.N() && !st[x].IsTerminal()
    ensures StillNeeded(g, st[x := Skipped], v) ==> StillNeeded(g, st, v)
  {
    var st' := st[x := Skipped];
    if StillNeeded(g, st', v) {
      var j :| j in g.succs[v] && if g.IsAny(j) then !HasExecutedPred(g, st', j) else !st'[j].IsTerminal();
      assert forall u :: u in g.preds[j] && st[u].Executed? ==> st'[u].Executed?;
    }
  }

  /** One resolved joiner: a candidate is skipped or untouched; it is skipped only as an unfinished
      sibling, and it is skipped if nothing needed it to begin with. */
  lemma {:induction false} CandsSkipped(g: Graph, s: St, w: nat, j: nat, k: nat, v: nat)
    requires WellFormed(g) && Shape(g, s) && j < g.N() && k <= |g.preds[j]| && v < g.N()
    ensures var t := SkipCands(g, s, w, j, k);
      && (t.state[v] != s.state[v] ==>
            t.state[v].Skipped? && v in g.preds[j][k..] && v != w && !s.state[v].IsTerminal()
            && !StillNeeded(g, t.state, v))
      && (v in g.preds[j][k..] && IsLoser(g, s.state, v, w) ==> t.state[v].Skipped?)
      && (!StillNeeded(g, s.state, v) ==> !StillNeeded(g, t.state, v))
    decreases |g.preds[j]| - k
  {
    if k < |g.preds[j]| {
      var x := g.preds[j][k];
      assert x in g.preds[j];
      assert g.preds[j][k..] == [x] + g.preds[j][k + 1..];
      var s' := if IsLoser(g, s.state, x, w) then SkipOne(g, s, x) else s;
      if IsLoser(g, s.state, x, w) { NeedShrinks(g, s.state, x, v); }
      hide StillNeeded;
      CandsSkipped(g, s', w, j, k + 1, v);
    }
  }

  /** v and w are candidates of a common any_of joiner, looked for from w's k-th edge on. */
  ghost predicate ShareAnyOf(g: Graph, w: nat, k: nat, v: nat)
    requires WellFormed(g) && w < g.N()
  {
    exists i :: k <= i < |g.succs[w]| && AnyOfCandidate(g, g.succs[w][i], v)
  }

  ghost predicate AnyOfCandidate(g: Graph, j: nat, v: nat)
    requires WellFormed(g)
  {
    j < g.N() && g.IsAny(j) && v in g.preds[j]
  }

  /** Loser skipping after w succeeded touches only unfinished siblings of w. It skips every one that
      no join needed when w succeeded, and none that a join still needs afterwards. */
  lemma {:induction false} LosersSkipped(g: Graph, s: St, w: nat, k: nat, v: nat)
    requires WellFormed(g) && Shape(g, s) && w < g.N() && k <= |g.succs[w]| && v < g.N()
    ensures var t := SkipJoiners(g, s, w, k);
      && (t.state[v] != s.state[v] ==>
            t.state[v].Skipped? && v != w && !s.state[v].IsTerminal() && ShareAnyOf(g, w, k, v)
            && !StillNeeded(g, t.state, v))
      && (IsLoser(g, s.state, v, w) && ShareAnyOf(g, w, k, v) ==> t.state[v].Skipped?)
      && (!StillNeeded(g, s.state, v) ==> !StillNeeded(g, t.state, v))
    decreases |g.succs[w]| - k
  {
    if k < |g.succs[w]| {
      var j := g.succs[w][k];
      assert j in g.succs[w];
      assert ShareAnyOf(g, w, k, v) <==> AnyOfCandidate(g, j, v) || ShareAnyOf(g, w, k + 1, v);
      var s' := if g.IsAny(j) then SkipCands(g, s, w, j, 0) else s;
      if g.IsAny(j) {
        CandsSkipped(g, s, w, j, 0, v);
        assert g.preds[j][0..] == g.preds[j];
      }
      hide StillNeeded, ShareAnyOf, SkipCands;
      LosersSkipped(g, s', w, k + 1, v);
    }
  }

  /** An any_of join without a winner keeps its candidates: nothing that is skipped on behalf of
      other joins gives it one. */
  lemma {:induction false} CandsKeepOpen(g: Graph, s: St, w: nat, j: nat, k: nat, v: nat, x: nat)
    requires WellFormed(g) && Shape(g, s) && j < g.N() && k <= |g.preds[j]| && v < g.N() && x < g.N()
    requires x in g.succs[v] && g.IsAny(x) && !HasExecutedPred(g, s.state, x)
    ensures var t := SkipCands(g, s, w, j, k);
      t.state[v] == s.state[v] && !HasExecutedPred(g, t.state, x)
    decreases |g.preds[j]| - k
  {
    if k < |g.preds[j]| {
      var y := g.preds[j][k];
      assert y in g.preds[j];
      assert StillNeeded(g, s.state, v);
      CandsKeepOpen(g, if IsLoser(g, s.state, y, w) then SkipOne(g, s, y) else s, w, j, k + 1, v, x);
    }
  }

  lemma {:induction false} OpenJoinKeeps(g: Graph, s: St, w: nat, k: nat, v: nat, x: nat)
    requires WellFormed(g) && Shape(g, s) && w < g.N() && k <= |g.succs[w]| && v < g.N() && x < g.N()
    requires x in g.succs[v] && g.IsAny(x) && !HasExecutedPred(g, s.state, x)
    ensures SkipJoiners(g, s, w, k).state[v] == s.state[v]
    decreases |g.succs[w]| - k
  {
    if k < |g.succs[w]| {
      var j := g.succs[w][k];
      assert j in g.succs[w];
      var s' := if g.IsAny(j) then SkipCands(g, s, w, j, 0) else s;
      if g.IsAny(j) { CandsKeepOpen(g, s, w, j, 0, v, x); }
      hide SkipCands, HasExecutedPred;
      OpenJoinKeeps(g, s', w, k + 1, v, x);
    }
  }

  /** An unfinished all_of join that is no sibling itself keeps its predecessors. */
  lemma {:induction false} CandsKeepNeeded(g: Graph, s: St, w: nat, j: nat, k: nat, v: nat, x: nat)
    requires WellFormed(g) && Shape(g, s) && j < g.N() && k <= |g.preds[j]| && v < g.N() && x < g.N()
    requires x in g.succs[v] && !g.IsAny(x) && !s.state[x].IsTerminal() && x !in g.preds[j]
    ensures var t := SkipCands(g, s, w, j, k);
      t.state[v] == s.state[v] && t.state[x] == s.state[x]
    decreases |g.preds[j]| - k
  {
    if k < |g.preds[j]| {
      var y := g.preds[j][k];
      assert y in g.preds[j] && StillNeeded(g, s.state, v);
      CandsKeepNeeded(g, if IsLoser(g, s.state, y, w) then SkipOne(g, s, y) else s, w, j, k + 1, v, x);
    }
  }

  lemma {:induction false} NeededJoinKeeps(g: Graph, s: St, w: nat, k: nat, v: nat, x: nat)
    requires WellFormed(g) && Shape(g, s) && w < g.N() && k <= |g.succs[w]| && v < g.N() && x < g.N()
    requires x in g.succs[v] && !g.IsAny(x) && !s.state[x].IsTerminal() && !ShareAnyOf(g, w, k, x)
    ensures var t := SkipJoiners(g, s, w, k);
      t.state[v] == s.state[v] && t.state[x] == s.state[x]
    decreases |g.succs[w]| - k
  {
    if k < |g.succs[w]| {
      var j := g.succs[w][k];
      assert j in g.succs[w];
      assert ShareAnyOf(g, w, k, x) <==> AnyOfCandidate(g, j, x) || ShareAnyOf(g, w, k + 1, x);
      var s' := if g.IsAny(j) then SkipCands(g, s, w, j, 0) else s;
      if g.IsAny(j) { CandsKeepNeeded(g, s, w, j, 0, v, x); }
      hide SkipCands, ShareAnyOf;
      NeededJoinKeeps(g, s', w, k + 1, v, x);
    }
  }

  /** No unfinished all_of successor of v is itself up for skipping when w has won. */
  ghost predicate NoSiblingBehind(g: Graph, st: seq<NodeState>, w: nat, v: nat)
    requires WellFormed(g) && |st| == g.N() && w < g.N() && v < g.N()
  {
    forall x :: x in g.succs[v] && !g.IsAny(x) && !st[x].IsTerminal() ==> !ShareAnyOf(g, w, 0, x)
  }

  /** The remaining siblings of a winner are not all skipped. An unfinished sibling is skipped if no
      join needs it, and only if none needs it afterwards. The two differ only if one of its all_of
      successors is skipped in between; if none can be, the condition is exact. */
  lemma SiblingSkippedIff(g: Graph, s: St, w: nat, v: nat)
    requires WellFormed(g) && Shape(g, s) && w < g.N() && v < g.N() && v != w && ShareAnyOf(g, w, 0, v)
    requires !s.state[v].IsTerminal()
    ensures var t := SkipJoiners(g, s, w, 0);
      && (!StillNeeded(g, s.state, v) ==> t.state[v].Skipped?)
      && (t.state[v].Skipped? ==> !StillNeeded(g, t.state, v))
      && (NoSiblingBehind(g, s.state, w, v) ==> (t.state[v].Skipped? <==> !StillNeeded(g, s.state, v)))
  {
    LosersSkipped(g, s, w, 0, v);
    if StillNeeded(g, s.state, v) && NoSiblingBehind(g, s.state, w, v) {
      NeededKept(g, s, w, v);
    }
  }

  lemma NeededKept(g: Graph, s: St, w: nat, v: nat)
    requires WellFormed(g) && Shape(g, s) && w < g.N() && v < g.N()
    requires StillNeeded(g, s.state, v) && NoSiblingBehind(g, s.state, w, v)
    ensures SkipJoiners(g, s, w, 0).state[v] == s.state[v]
  {
    var j :| j in g.succs[v] && if g.IsAny(j) then !HasExecutedPred(g, s.state, j) else !s.state[j].IsTerminal();
    if g.IsAny(j) {
      OpenJoinKeeps(g, s, w, 0, v, j);
    } else {
      NeededJoinKeeps(g, s, w, 0, v, j);
    }
  }

  /** In particular a sibling that feeds any_of joins only is skipped exactly when each of them
      has a winner. */
  lemma RacerSkippedIff(g: Graph, s: St, w: nat, v: nat)
    requires WellFormed(g) && Shape(g, s) && w < g.N() && v < g.N() && v != w && ShareAnyOf(g, w, 0, v)
    requires !s.state[v].IsTerminal() && forall j :: j in g.succs[v] ==> g.IsAny(j)
    ensures SkipJoiners(g, s, w, 0).state[v].Skipped? <==>
      forall j :: j in g.succs[v] ==> HasExecutedPred(g, s.state, j)
  {
    SiblingSkippedIff(g, s, w, v);
  }

  // ---- whole runs -------------------------------------------------------------------------------

  ghost predicate FeedsAnyOf(g: Graph, v: nat)
    requires WellFormed(g) && v < g.N()
  {
    exists j :: j in g.succs[v] && g.IsAny(j)
  }

  /** An all_of node that feeds an any_of join has no predecessor that feeds one. */
  ghost predicate Decoupled(g: Graph)
    requires WellFormed(g)
  {
    forall v, x :: 0 <= v < g.N() && x in g.succs[v] && FeedsAnyOf(g, v) && FeedsAnyOf(g, x) ==> g.IsAny(x)
  }

  /** An unfinished candidate of a join that has a winner is needed by some other join. */
  ghost predicate Purposeful(g: Graph, st: seq<NodeState>)
    requires WellFormed(g) && |st| == g.N()
  {
    forall v, j :: 0 <= v < g.N() && j in g.succs[v] && Resolved(g, st, j) && !st[v].IsTerminal() ==>
      StillNeeded(g, st, v)
  }

  ghost predicate Resolved(g: Graph, st: seq<NodeState>, j: nat)
    requires WellFormed(g) && |st| == g.N() && j < g.N()
  {
    g.IsAny(j) && HasExecutedPred(g, st, j)
  }

  /** The same nodes are finished, and the same ones executed. */
  predicate SameFinish(st: seq<NodeState>, st': seq<NodeState>) {
    |st| == |st'| && forall v :: 0 <= v < |st| ==>
      (st[v].Executed? <==> st'[v].Executed?) && (st[v].IsTerminal() <==> st'[v].IsTerminal())
  }

  lemma SameWinner(g: Graph, st: seq<NodeState>, st': seq<NodeState>, j: nat)
    requires WellFormed(g) && |st| == |st'| == g.N() && j < g.N()
    requires forall u :: 0 <= u < g.N() ==> (st[u].Executed? <==> st'[u].Executed?)
    ensures HasExecutedPred(g, st, j) <==> HasExecutedPred(g, st', j)
  {
  }

  lemma SameNeed(g: Graph, st: seq<NodeState>, st': seq<NodeState>, v: nat)
    requires WellFormed(g) && |st| == g.N() && SameFinish(st, st') && v < g.N()
    ensures StillNeeded(g, st, v) ==> StillNeeded(g, st', v)
  {
    if StillNeeded(g, st, v) {
      var j :| j in g.succs[v] && if g.IsAny(j) then !HasExecutedPred(g, st, j) else !st[j].IsTerminal();
      SameWinner(g, st, st', j);
    }
  }

  lemma SamePurposeful(g: Graph, st: seq<NodeState>, st': seq<NodeState>)
    requires WellFormed(g) && |st| == g.N() && SameFinish(st, st') && Purposeful(g, st)
    ensures Purposeful(g, st')
  {
    hide StillNeeded, HasExecutedPred;
    forall v, j | 0 <= v < g.N() && j in g.succs[v] && Resolved(g, st', j) && !st'[v].IsTerminal()
      ensures StillNeeded(g, st', v)
    {
      SameWinner(g, st, st', j);
      assert Resolved(g, st, j);
      SameNeed(g, st, st', v);
    }
  }

  lemma ShareBy(g: Graph, w: nat, v: nat, j: nat)
    requires WellFormed(g) && w < g.N() && v < g.N() && j < g.N()
    requires g.IsAny(j) && j in g.succs[w] && j in g.succs[v]
    ensures ShareAnyOf(g, w, 0, v)
  {
    EdgeBothWays(g, v, j);
    var i :| 0 <= i < |g.succs[w]| && g.succs[w][i] == j;
    assert AnyOfCandidate(g, g.succs[w][i], v);
  }

  lemma ShareFeeds(g: Graph, w: nat, v: nat)
    requires WellFormed(g) && w < g.N() && v < g.N() && ShareAnyOf(g, w, 0, v)
    ensures FeedsAnyOf(g, v)
  {
    var i :| 0 <= i < |g.succs[w]| && AnyOfCandidate(g, g.succs[w][i], v);
    EdgeBothWays(g, v, g.succs[w][i]);
  }

  lemma DecoupledBehind(g: Graph, st: seq<NodeState>, w: nat, v: nat)
    requires WellFormed(g) && Decoupled(g) && |st| == g.N() && w < g.N() && v < g.N() && FeedsAnyOf(g, v)
    ensures NoSiblingBehind(g, st, w, v)
  {
    hide FeedsAnyOf, ShareAnyOf;
    forall x | x in g.succs[v] && !g.IsAny(x) && !st[x].IsTerminal()
      ensures !ShareAnyOf(g, w, 0, x)
    {
      if ShareAnyOf(g, w, 0, x) { ShareFeeds(g, w, x); }
    }
  }

  /** Skipping takes no winner away and adds none. */
  lemma SkipsKeepWinners(g: Graph, s: St, w: nat, j: nat)
    requires WellFormed(g) && Shape(g, s) && w < g.N() && j < g.N()
    ensures HasExecutedPred(g, SkipJoiners(g, s, w, 0).state, j) <==> HasExecutedPred(g, s.state, j)
  {
    var t := SkipJoiners(g, s, w, 0);
    forall u | 0 <= u < g.N()
      ensures t.state[u].Executed? <==> s.state[u].Executed?
    {
      LosersSkipped(g, s, w, 0, u);
    }
    hide SkipJoiners;
    SameWinner(g, s.state, t.state, j);
  }

  /** j is a reason not to skip v. */
  ghost predicate Needs(g: Graph, st: seq<NodeState>, v: nat, j: nat)
    requires WellFormed(g) && |st| == g.N() && v < g.N()
  {
    j in g.succs[v] && if g.IsAny(j) then !HasExecutedPred(g, st, j) else !st[j].IsTerminal()
  }

  /** After the skips nothing needs v exactly if whatever needed it was itself skipped. */
  lemma NeedEndsBySkips(g: Graph, s: St, w: nat, v: nat)
    requires WellFormed(g) && Shape(g, s) && w < g.N() && v < g.N()
    ensures var t := SkipJoiners(g, s, w, 0).state;
      !StillNeeded(g, t, v) <==> forall j: nat :: Needs(g, s.state, v, j) ==> !g.IsAny(j) && t[j].Skipped?
  {
    var t := SkipJoiners(g, s, w, 0).state;
    hide SkipJoiners, HasExecutedPred, ShareAnyOf;
    forall j | j in g.succs[v]
      ensures HasExecutedPred(g, t, j) <==> HasExecutedPred(g, s.state, j)
      ensures t[j] == s.state[j] || (t[j].Skipped? && !s.state[j].IsTerminal())
      ensures Needs(g, t, v, j) <==> Needs(g, s.state, v, j) && (g.IsAny(j) || !t[j].Skipped?)
    {
      SkipsKeepWinners(g, s, w, j);
      LosersSkipped(g, s, w, 0, j);
    }
    assert StillNeeded(g, t, v) <==> exists j: nat :: Needs(g, t, v, j);
  }

  /** Read off the state in which w has won: the skips end the last need of v exactly if everything
      that needs it is an all_of join that loses against w and is needed by nobody. Then v, which may
      not be looked at again, can stay unfinished. */
  lemma NeedEndsIff(g: Graph, s: St, w: nat, v: nat)
    requires WellFormed(g) && Shape(g, s) && w < g.N() && v < g.N() && s.state[w].Executed?
    requires forall j: nat :: Needs(g, s.state, v, j) && !g.IsAny(j) ==> NoSiblingBehind(g, s.state, w, j)
    ensures !StillNeeded(g, SkipJoiners(g, s, w, 0).state, v) <==>
      forall j: nat :: Needs(g, s.state, v, j) ==>
        !g.IsAny(j) && ShareAnyOf(g, w, 0, j) && !StillNeeded(g, s.state, j)
  {
    var t := SkipJoiners(g, s, w, 0).state;
    NeedEndsBySkips(g, s, w, v);
    hide SkipJoiners, ShareAnyOf, StillNeeded, NoSiblingBehind, HasExecutedPred;
    forall j: nat | Needs(g, s.state, v, j) && !g.IsAny(j)
      ensures t[j].Skipped? <==> ShareAnyOf(g, w, 0, j) && !StillNeeded(g, s.state, j)
    {
      LosersSkipped(g, s, w, 0, j);
      if ShareAnyOf(g, w, 0, j) { SiblingSkippedIff(g, s, w, j); }
    }
  }

  /** What needs v when w wins still needs it after the skips. */
  lemma NeedSurvives(g: Graph, s: St, w: nat, v: nat)
    requires WellFormed(g) && Decoupled(g) && Shape(g, s) && w < g.N() && v < g.N()
    requires FeedsAnyOf(g, v) && StillNeeded(g, s.state, v)
    ensures StillNeeded(g, SkipJoiners(g, s, w, 0).state, v)
  {
    hide SkipJoiners, FeedsAnyOf, Decoupled, HasExecutedPred;
    DecoupledBehind(g, s.state, w, v);
    var j :| j in g.succs[v] && if g.IsAny(j) then !HasExecutedPred(g, s.state, j) else !s.state[j].IsTerminal();
    if g.IsAny(j) {
      SkipsKeepWinners(g, s, w, j);
    } else {
      NeededJoinKeeps(g, s, w, 0, v, j);
    }
  }

  /** The end of w ends no need of v, unless they race for the same join. */
  lemma NeedOutlives(g: Graph, st: seq<NodeState>, w: nat, to: NodeState, v: nat)
    requires WellFormed(g) && |st| == g.N() && w < g.N() && v < g.N() && st[w].Running? && JoinMet(g, st, w)
    requires !st[v].IsTerminal() && StillNeeded(g, st, v) && (to.Executed? ==> !ShareAnyOf(g, w, 0, v))
    ensures StillNeeded(g, st[w := to], v)
  {
    var j :| j in g.succs[v] && if g.IsAny(j) then !HasExecutedPred(g, st, j) else !st[j].IsTerminal();
    EdgeBothWays(g, v, j);
    if g.IsAny(j) {
      EdgeBothWays(g, w, j);
      if to.Executed? && w in g.preds[j] { ShareBy(g, w, v, j); }
      hide ShareAnyOf;
      assert forall u :: u in g.preds[j] && st[w := to][u].Executed? ==> st[u].Executed? || (u == w && to.Executed?);
    }
  }

  lemma WinnerPurposeful(g: Graph, st: seq<NodeState>, s: St, w: nat)
    requires WellFormed(g) && Decoupled(g) && |st| == g.N() && w < g.N() && st[w].Running? && JoinMet(g, st, w)
    requires Shape(g, s) && s.state == st[w := Executed] && Purposeful(g, st)
    ensures Purposeful(g, SkipJoiners(g, s, w, 0).state)
  {
    var t := SkipJoiners(g, s, w, 0).state;
    hide SkipJoiners, StillNeeded, Decoupled, ShareAnyOf, HasExecutedPred;
    forall v, j | 0 <= v < g.N() && j in g.succs[v] && Resolved(g, t, j) && !t[v].IsTerminal()
      ensures StillNeeded(g, t, v)
    {
      LosersSkipped(g, s, w, 0, v);
      SkipsKeepWinners(g, s, w, j);
      if !StillNeeded(g, s.state, v) {
        StillNeededThen(g, st, w, v, j);
      }
      NeedSurvives(g, s, w, v);
    }
  }

  lemma StillNeededThen(g: Graph, st: seq<NodeState>, w: nat, v: nat, j: nat)
    requires WellFormed(g) && |st| == g.N() && w < g.N() && v < g.N() && st[w].Running? && JoinMet(g, st, w)
    requires Purposeful(g, st) && !st[v].IsTerminal() && j in g.succs[v] && !ShareAnyOf(g, w, 0, v)
    requires Resolved(g, st[w := Executed], j)
    ensures StillNeeded(g, st[w := Executed], v)
  {
    EdgeBothWays(g, w, j);
    if w in g.preds[j] { ShareBy(g, w, v, j); }
    hide ShareAnyOf, StillNeeded, JoinMet;
    assert Resolved(g, st, j);
    NeedOutlives(g, st, w, Executed, v);
  }

  lemma FailurePurposeful(g: Graph, st: seq<NodeState>, w: nat, to: NodeState)
    requires WellFormed(g) && |st| == g.N() && w < g.N() && st[w].Running? && JoinMet(g, st, w)
    requires (to.Ready? || to.Failed?) && Purposeful(g, st)
    ensures Purposeful(g, st[w := to])
  {
    hide StillNeeded, JoinMet, HasExecutedPred;
    forall v, j | 0 <= v < g.N() && j in g.succs[v] && Resolved(g, st[w := to], j) && !st[w := to][v].IsTerminal()
      ensures StillNeeded(g, st[w := to], v)
    {
      SameWinner(g, st, st[w := to], j);
      assert Resolved(g, st, j);
      NeedOutlives(g, st, w, to, v);
    }
  }

  lemma PromoteSameFinish(g: Graph, s: St)
    requires WellFormed(g) && Shape(g, s)
    ensures SameFinish(s.state, PromoteFrom(g, s, 0).state)
  {
    forall v | 0 <= v < g.N()
      ensures var x, y := s.state[v], PromoteFrom(g, s, 0).state[v];
        (x.Executed? <==> y.Executed?) && (x.IsTerminal() <==> y.IsTerminal())
    {
      PromoteEffect(g, s, 0, v);
    }
  }

  lemma ObservedPurposeful(c: Config, s: St, e: Event)
    requires Checked(c) && Decoupled(c.g) && AtHead(c, s) && e.node in s.workers && e.node < c.g.N()
    requires Purposeful(c.g, s.state)
    ensures Purposeful(c.g, Observed(c, s, e).state)
  {
    assert WellFormed(c.g) && Shape(c.g, s);
    EventSource(c, s, e.node);
    if s.state[e.node].Running? {
      RunningMet(c, s, e.node);
      hide Absorb, AtHead, Purposeful, Decoupled, JoinMet, Settle, Checked, WellFormed;
      AbsorbEffect(c, s, e.node, e.result);
      SettlePurposeful(c.g, s.state, Absorb(c, s, e.node, e.result), e.node);
    }
  }

  lemma RunningMet(c: Config, s: St, v: nat)
    requires WellFormed(c.g) && AtHead(c, s) && v < c.g.N() && s.state[v].Running?
    ensures JoinMet(c.g, s.state, v)
  {
    RunningIsEverReady(c.g, s, v);
  }

  lemma SettlePurposeful(g: Graph, st: seq<NodeState>, t: St, w: nat)
    requires WellFormed(g) && Decoupled(g) && |st| == g.N() && w < g.N() && st[w].Running? && JoinMet(g, st, w)
    requires Shape(g, t) && t.state == st[w := t.state[w]] && Purposeful(g, st)
    requires t.state[w].Executed? || t.state[w].Ready? || t.state[w].Failed?
    ensures Purposeful(g, Settle(g, t, w).state)
  {
    hide Purposeful, Decoupled, JoinMet, SkipJoiners, PromoteFrom, WellFormed;
    if t.state[w].Executed? {
      WinnerPurposeful(g, st, t, w);
    } else {
      FailurePurposeful(g, st, w, t.state[w]);
    }
    var u := if t.state[w].Executed? then SkipJoiners(g, t, w, 0) else t;
    PromoteSameFinish(g, u);
    SamePurposeful(g, u.state, PromoteFrom(g, u, 0).state);
  }

  lemma LaunchPurposeful(g: Graph, st: seq<NodeState>, st': seq<NodeState>)
    requires WellFormed(g) && |st| == g.N() && OnlyLaunched(st, st') && Purposeful(g, st)
    ensures Purposeful(g, st')
  {
    hide Purposeful;
    SamePurposeful(g, st, st');
  }

  lemma StartPurposeful(c: Config)
    requires Checked(c)
    ensures Purposeful(c.g, Start(c).state)
  {
    NothingExecuted(c);
    hide Start, StillNeeded;
  }

  lemma NothingExecuted(c: Config)
    requires Checked(c)
    ensures forall v :: 0 <= v < c.g.N() ==> !Start(c).state[v].Executed?
  {
    StartAtHead(c);
    SeedShape(c.g, Blank(c.g), 0);
    hide Start, AtHead, SeedFrom;
  }

  /** In a decoupled plan no candidate is left running or waiting without a purpose: at every loop
      head, an unfinished candidate of a join that has a winner is needed by some other join. */
  lemma {:induction false} NoIdleSiblings(c: Config, evs: seq<Event>)
    requires Checked(c) && Decoupled(c.g) && Feasible(c, evs)
    ensures Purposeful(c.g, After(c, evs).state)
    decreases |evs|
  {
    hide After, Handle, AtHead, Purposeful, Decoupled, Poll, Start, Observed;
    if |evs| == 0 {
      StartPurposeful(c);
      NoEvents(c);
    } else {
      var init, e := evs[..|evs| - 1], evs[|evs| - 1];
      SplitLast(evs);
      RunExtend(c, init, e);
      NoIdleSiblings(c, init);
      RunAtHead(c, init);
      ObservedPurposeful(c, After(c, init), e);
      HandleAtHead(c, After(c, init), e);
      LaunchPurposeful(c.g, Observed(c, After(c, init), e).state, Handle(c, After(c, init), e).state);
    }
  }
}
