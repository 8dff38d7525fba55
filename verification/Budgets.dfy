/** Retries of whole runs. A node's RetryBudget is said to cap its retries (engine/plan/types.go:114,
    engine/recovery/recovery.go:68), but nothing reads it: what caps them is the policy. */
module Budgets {
  import opened Plans
  import opened Graphs
  import opened Lists
  import opened Recovery
  import Traces
  import opened Machine
  import opened Steps
  import opened Invariants
  import opened LoopHead
  import opened Theorems
  import opened Failures

  /** Alone on the ladder: the failures a budget must expect are those the policy retries. */
  lemma BudgetCapsLadderIff(p: Policy, budget: int)
    ensures (forall kinds: seq<bool> :: Climb(p, kinds).retries <= budget) <==> p.RetryCap() <= budget
  {
    var worst := seq(p.RetryCap(), _ => true);
    AllTransient(worst, |worst|);
    LadderBudgets(p, worst);
    assert worst[..|worst|] == worst;
    forall kinds: seq<bool>
      ensures Climb(p, kinds).retries <= p.RetryCap()
    {
      LadderBudgets(p, kinds);
    }
  }

  lemma {:induction false} AllTransient(kinds: seq<bool>, n: nat)
    requires n <= |kinds| && forall i :: 0 <= i < |kinds| ==> kinds[i]
    ensures Transients(kinds[..n]) == n
  {
    if n > 0 {
      AllTransient(kinds, n - 1);
      assert kinds[..n][..n - 1] == kinds[..n - 1];
    }
  }

  // ---- the budget of a node that comes to run -----------------------------------------------------

  predicate RetriesWithin(s: St, v: nat, budget: int) {
    v < |s.attempt| && s.attempt[v].retries <= budget
  }

  /** The promise: no reachable state has v beyond its RetryBudget. */
  ghost predicate BudgetHolds(c: Config, v: nat)
    requires WellFormed(c.g) && v < c.g.N()
  {
    forall s :: Reachable(c, s) ==> RetriesWithin(s, v, c.g.nodes[v].retryBudget)
  }

  lemma RetriesInv(c: Config, s: St, v: nat)
    requires WellFormed(c.g) && Inv(c, s) && v < c.g.N()
    ensures s.attempt[v].retries <= c.policy.RetryCap()
  {
    assert CountedNode(c.policy, s.state[v], s.attempt[v], Traces.Launches(s.trace, v), Traces.Proj(s.trace, v));
  }

  /** A node whose budget the policy does not exceed stays within it, in every reachable state. */
  lemma RetriesStayWithin(c: Config, s: St, v: nat, budget: int)
    requires Checked(c) && Reachable(c, s) && v < c.g.N() && c.policy.RetryCap() <= budget
    ensures RetriesWithin(s, v, budget)
  {
    ReachableInv(c, s);
    RetriesInv(c, s, v);
  }

  lemma EndReachable(c: Config, evs: seq<Event>)
    requires WellFormed(c.g) && Feasible(c, evs)
    ensures Reachable(c, After(c, evs))
  {
    var s := After(c, evs);
    hide After, Feasible, Poll, DrainOne;
    assert DrainFeasible(c.g, s, []) && Drain(c.g, s, []) == s;
    hide Drain, DrainFeasible;
  }

  lemma EndCounts(c: Config, evs: seq<Event>, v: nat)
    requires Checked(c) && Feasible(c, evs) && v < c.g.N() && BudgetHolds(c, v)
    ensures After(c, evs).attempt[v].retries <= c.g.nodes[v].retryBudget
  {
    EndReachable(c, evs);
    hide After, Reachable, Feasible;
    assert RetriesWithin(After(c, evs), v, c.g.nodes[v].retryBudget);
  }

  /** Once any run has made a node ready or running, the condition is exact: its retries stay within
      its RetryBudget in every reachable state exactly if the policy's cap does. */
  lemma RetryBudgetIff(c: Config, evs: seq<Event>, v: nat)
    requires Checked(c) && Feasible(c, evs) && v < c.g.N()
    requires After(c, evs).state[v].Ready? || After(c, evs).state[v].Running?
    ensures BudgetHolds(c, v) <==> c.policy.RetryCap() <= c.g.nodes[v].retryBudget
  {
    var full := SpendsAll(c, evs, v);
    hide After, BudgetHolds, Checked;
    if BudgetHolds(c, v) {
      EndCounts(c, full, v);
    }
    if c.policy.RetryCap() <= c.g.nodes[v].retryBudget {
      CapHolds(c, v);
    }
  }

  lemma CapHolds(c: Config, v: nat)
    requires Checked(c) && v < c.g.N() && c.policy.RetryCap() <= c.g.nodes[v].retryBudget
    ensures BudgetHolds(c, v)
  {
    hide Reachable, RetriesWithin;
    forall s | Reachable(c, s)
      ensures RetriesWithin(s, v, c.g.nodes[v].retryBudget)
    {
      RetriesStayWithin(c, s, v, c.g.nodes[v].retryBudget);
    }
  }

  lemma {:induction false} DrainAttempts(g: Graph, s: St, vs: seq<nat>)
    requires Shape(g, s) && forall i :: 0 <= i < |vs| ==> vs[i] < g.N()
    ensures Drain(g, s, vs).attempt == s.attempt
    decreases |vs|
  {
    if |vs| > 0 { DrainAttempts(g, s, vs[..|vs| - 1]); }
  }

  lemma IdleHolds(c: Config, v: nat)
    requires Checked(c) && v < c.g.N() && 0 <= c.g.nodes[v].retryBudget && !Startable(c, v)
    ensures BudgetHolds(c, v)
  {
    hide Startable, After, Poll, Drain;
    forall s | Reachable(c, s)
      ensures RetriesWithin(s, v, c.g.nodes[v].retryBudget)
    {
      var evs, vs :| Feasible(c, evs) && DrainFeasible(c.g, After(c, evs), vs)
        && (vs != [] ==> Poll(c, After(c, evs)).Wait?) && s == Drain(c.g, After(c, evs), vs);
      NeverSpent(c, evs, vs, v);
    }
  }

  lemma NeverSpent(c: Config, evs: seq<Event>, vs: seq<nat>, v: nat)
    requires Checked(c) && Feasible(c, evs) && DrainFeasible(c.g, After(c, evs), vs) && v < c.g.N() && !Startable(c, v)
    ensures Drain(c.g, After(c, evs), vs).attempt[v] == FRESH
  {
    DrainAttempts(c.g, After(c, evs), vs);
    hide After, Drain, Startable, Feasible;
    if After(c, evs).attempt[v] != FRESH { WasRunning(c, evs, v); }
  }

  /** For every node of every plan: its budget holds exactly if the policy's cap does not exceed it, or
      no run ever starts the node. (A budget is never negative in a plan that passes the checks.) */
  lemma RetryBudgetExact(c: Config, v: nat)
    requires Checked(c) && v < c.g.N() && 0 <= c.g.nodes[v].retryBudget
    ensures BudgetHolds(c, v) <==> c.policy.RetryCap() <= c.g.nodes[v].retryBudget || !Startable(c, v)
  {
    assert WellFormed(c.g);
    hide BudgetHolds, After, Feasible, Checked;
    if Startable(c, v) {
      var evs :| RunsAfter(c, evs, v);
      RetryBudgetIff(c, evs, v);
    } else {
      IdleHolds(c, v);
    }
  }

  // ---- plans in which a node can be started -------------------------------------------------------

  /** Nothing that v waits for races v. In particular an exit node is no candidate of any join. */
  ghost predicate RaceFree(g: Graph, v: nat)
    requires WellFormed(g) && v < g.N()
  {
    forall j, u :: j in g.succs[v] && g.IsAny(j) && u in g.preds[j] ==> !Before(g, u, v)
  }

  /** What v waits for succeeds, everything else fails for ever. */
  ghost function Only(g: Graph, v: nat, u: nat): Result {
    if Before(g, u, v) then Result("", false, None) else TRANSIENT
  }

  /** In such a run only ancestors of v are executed, none of them fails, and v is not skipped. */
  ghost predicate OnlyAncestors(c: Config, s: St, v: nat)
    requires WellFormed(c.g) && Shape(c.g, s) && v < c.g.N()
  {
    && !s.state[v].Skipped?
    && forall u :: 0 <= u < c.g.N() ==>
         (s.state[u].Executed? ==> Before(c.g, u, v)) && (s.state[u].Failed? ==> !Before(c.g, u, v))
  }

  lemma StepOnlyAncestors(c: Config, s: St, a: Step, v: nat)
    requires WellFormed(c.g) && Shape(c.g, s) && Enabled(c, s, a) && v < c.g.N()
    requires RaceFree(c.g, v) && OnlyAncestors(c, s, v)
    ensures OnlyAncestors(c, Do(c, s, a), v)
  {
    hide Before;
    if a.SkipLoser? && a.v == v {
      EdgeBothWays(c.g, v, a.joiner);
    }
  }

  lemma {:induction false} FollowsOnlyAncestors(c: Config, s: St, acts: seq<Step>, t: St, v: nat)
    requires WellFormed(c.g) && Shape(c.g, s) && Follows(c, s, acts, t) && v < c.g.N()
    requires RaceFree(c.g, v) && OnlyAncestors(c, s, v)
    ensures Shape(c.g, t) && OnlyAncestors(c, t, v)
    decreases |acts|
  {
    if |acts| > 0 {
      StepOnlyAncestors(c, s, acts[0], v);
      hide OnlyAncestors, RaceFree, Do, Enabled;
      FollowsOnlyAncestors(c, Do(c, s, acts[0]), acts[1..], t, v);
    }
  }

  lemma AbsorbOnlyAncestors(c: Config, s: St, u: nat, v: nat)
    requires WellFormed(c.g) && Shape(c.g, s) && v < c.g.N() && u < c.g.N() && OnlyAncestors(c, s, v)
    ensures OnlyAncestors(c, Absorb(c, s, u, Only(c.g, v, u)), v)
  {
    AbsorbEffect(c, s, u, Only(c.g, v, u));
    hide Absorb, Before;
  }

  lemma HandleOnlyAncestors(c: Config, s: St, u: nat, v: nat)
    requires Checked(c) && Inv(c, s) && u in s.workers && v < c.g.N() && RaceFree(c.g, v) && OnlyAncestors(c, s, v)
    ensures u < c.g.N() && OnlyAncestors(c, Handle(c, s, Event(u, Only(c.g, v, u))), v)
  {
    var e := Event(u, Only(c.g, v, u));
    EventSource(c, s, u);
    var acts := HandleSteps(c, s, e);
    AbsorbOnlyAncestors(c, s, u, v);
    ReceiveOnlyAncestors(c, s, u, v);
    hide Inv, Absorb, Receive, Handle, Follows, Only, RaceFree, Checked, OnlyAncestors;
    if s.state[u].IsTerminal() {
      FollowsOnlyAncestors(c, Receive(s, u), acts, Handle(c, s, e), v);
    } else {
      FollowsOnlyAncestors(c, Absorb(c, s, u, e.result), acts, Handle(c, s, e), v);
    }
  }

  lemma ReceiveOnlyAncestors(c: Config, s: St, u: nat, v: nat)
    requires WellFormed(c.g) && Shape(c.g, s) && v < c.g.N() && OnlyAncestors(c, s, v)
    ensures Shape(c.g, Receive(s, u)) && OnlyAncestors(c, Receive(s, u), v)
  {
    hide Before;
  }

  lemma {:induction false} RunOnlyAncestors(c: Config, evs: seq<Event>, v: nat)
    requires Checked(c) && Feasible(c, evs) && v < c.g.N() && RaceFree(c.g, v)
    requires forall i :: 0 <= i < |evs| ==> evs[i].result == Only(c.g, v, evs[i].node)
    ensures OnlyAncestors(c, After(c, evs), v)
    decreases |evs|
  {
    hide After, Handle, AtHead, Only, RaceFree, Poll, Start, OnlyAncestors;
    if |evs| == 0 {
      StartOnlyAncestors(c, v);
      NoEvents(c);
    } else {
      var init, e := evs[..|evs| - 1], evs[|evs| - 1];
      SplitLast(evs);
      RunExtend(c, init, e);
      RunOnlyAncestors(c, init, v);
      HeadInv(c, init);
      HandleOnlyAncestors(c, After(c, init), e.node, v);
    }
  }

  lemma StartOnlyAncestors(c: Config, v: nat)
    requires Checked(c) && v < c.g.N() && RaceFree(c.g, v)
    ensures OnlyAncestors(c, Start(c), v)
  {
    var acts := StartSteps(c);
    assert OnlyAncestors(c, Blank(c.g), v);
    hide Start, OnlyAncestors, RaceFree, Checked;
    FollowsOnlyAncestors(c, Blank(c.g), acts, Start(c), v);
  }

  lemma HeadInv(c: Config, evs: seq<Event>)
    requires Checked(c) && Feasible(c, evs)
    ensures Inv(c, After(c, evs))
  {
    hide After, Feasible;
    RunAtHead(c, evs);
  }

  /** So v comes to run: otherwise it would be finished without having been started, or wait for a
      failed ancestor. */
  lemma RaceFreeStarts(c: Config, v: nat)
    requires Checked(c) && Acyclic(c.g) && v < c.g.N() && RaceFree(c.g, v)
    ensures Startable(c, v)
  {
    assert Feasible(c, []);
    var evs := RunCompletes(c, [], (_, u: nat) => Only(c.g, v, u));
    RunOnlyAncestors(c, evs, v);
    NoSilentDeadlock(c, evs);
    RunBalanced(c, evs);
    assert InPlan(c.g, evs) && !OnCycle(c.g, v);
    hide After, RaceFree, Only, Before, Acyclic, Startable, Feasible, Poll, Checked, WellFormed;
    assert After(c, evs).state[v].Failed?;
    WasRunning(c, evs, v);
  }

  /** Hence for such a node the condition can be read off the plan and the policy. */
  lemma RaceFreeBudgetIff(c: Config, v: nat)
    requires Checked(c) && Acyclic(c.g) && v < c.g.N() && RaceFree(c.g, v)
    ensures BudgetHolds(c, v) <==> c.policy.RetryCap() <= c.g.nodes[v].retryBudget
  {
    RaceFreeStarts(c, v);
    hide BudgetHolds, After, Feasible, Checked, RaceFree, Acyclic;
    var evs :| RunsAfter(c, evs, v);
    RetryBudgetIff(c, evs, v);
  }

  // ---- the smallest failure of the promise ------------------------------------------------------

  /** In every plan, a transient failure of a running node is retried as long as the policy allows
      it, whatever the node's budget, even 0. */
  lemma BudgetIgnored(c: Config, evs: seq<Event>, v: nat, r: Result)
    requires Checked(c) && RunsAfter(c, evs, v) && r.err.Some? && r.retryable
    requires After(c, evs).attempt[v].retries < c.policy.RetryCap()
    ensures Feasible(c, evs + [Event(v, r)])
    ensures After(c, evs + [Event(v, r)]).attempt[v].retries == After(c, evs).attempt[v].retries + 1
  {
    hide After, AtHead, Handle;
    MayReport(c, evs, v, r);
    HandleAttempts(c, After(c, evs), Event(v, r));
    RetrySpent(c, After(c, evs), v, r);
  }

  lemma RetrySpent(c: Config, s: St, v: nat, r: Result)
    requires Shape(c.g, s) && v < c.g.N() && r.err.Some? && r.retryable && s.attempt[v].retries < c.policy.RetryCap()
    ensures Absorb(c, s, v, r).attempt[v].retries == s.attempt[v].retries + 1
  {
  }
}
