/** Whole-run results about the scheduler: for every plan that passed the checks, every order
    of completion events, every result, every MaxParallel and every point of cancellation. */
module Theorems {
  import opened Plans
  import opened Graphs
  import opened Lists
  import opened Topo
  import opened Recovery
  import opened Traces
  import opened Machine
  import opened Steps
  import opened Invariants
  import opened LoopHead
  import Validate
  import Wal

  // ---- workers ----------------------------------------------------------------------------------

  /** inFlight counts the outstanding workers; a node has at most one, a running node has one,
      and a worker without a running node belongs to a skipped one. */
  lemma WorkerAccounting(c: Config, s: St, v: nat)
    requires Checked(c) && Reachable(c, s)
    ensures s.inFlight == |s.workers| <= c.maxParallel
    ensures s.workers[v] <= 1
    ensures v in s.workers ==> v < c.g.N() && (s.state[v].Running? || s.state[v].Skipped?)
    ensures v < c.g.N() && s.state[v].Running? ==> v in s.workers
  {
    ReachableInv(c, s);
  }

  /** A destructive node's worker is the only one, counting workers of skipped nodes, and a
      destructive node is never skipped. */
  lemma DestructiveIsolation(c: Config, s: St, d: nat)
    requires Checked(c) && Reachable(c, s) && d < c.g.N() && c.g.IsDestructive(d)
    ensures d in s.workers ==> s.workers == multiset{d}
    ensures !s.state[d].Skipped?
  {
    ReachableInv(c, s);
    if d in s.workers {
      assert s.workers == s.workers - multiset{d} + multiset{d};
    }
  }

  // ---- joins ------------------------------------------------------------------------------------

  /** The all_of test accepts skipped predecessors, but no reachable state uses that: a node that
      was ever ready has all its predecessors executed, and its worker was given exactly them. */
  lemma AllOfUsesExecutedOnly(c: Config, s: St, v: nat)
    requires Checked(c) && Reachable(c, s) && v < c.g.N() && !c.g.IsAny(v) && EverReady(s.trace, v)
    ensures forall u :: u in c.g.preds[v] ==> s.state[u].Executed?
    ensures s.state[v].Running? ==>
      && s.job[v].inputs.Keys == (set u | u in c.g.preds[v])
      && forall u :: u in c.g.preds[v] ==> s.job[v].inputs[u] == s.output[u]
  {
    ReachableInv(c, s);
    assert JoinMet(c.g, s.state, v);
    if s.state[v].Running? {
      assert SuppliedNode(c.g, s, v);
    }
  }

  /** Skipping is safe, and an exit node is never skipped. */
  lemma SkipSafety(c: Config, s: St, v: nat, j: nat)
    requires Checked(c) && Reachable(c, s) && v < c.g.N() && s.state[v].Skipped?
    ensures c.g.succs[v] != []
    ensures j in c.g.succs[v] && c.g.IsAny(j) ==> HasExecutedPred(c.g, s.state, j)
    ensures j in c.g.succs[v] && !c.g.IsAny(j) ==> s.state[j].Skipped?
  {
    ReachableInv(c, s);
    assert SafelySkipped(c.g, s.state, v);
  }

  // ---- terminal states absorb -------------------------------------------------------------------

  ghost predicate Frozen(s: St, t: St, v: nat) {
    && v < |s.state| == |s.attempt| == |s.output| && |s.state| == |t.state| == |t.attempt| == |t.output|
    && t.state[v] == s.state[v] && t.attempt[v] == s.attempt[v] && t.output[v] == s.output[v]
  }

  lemma {:induction false} FollowsFrozen(c: Config, s: St, acts: seq<Step>, t: St, v: nat)
    requires WellFormed(c.g) && Shape(c.g, s) && Follows(c, s, acts, t)
    requires v < c.g.N() && s.state[v].IsTerminal()
    ensures Shape(c.g, t) && Frozen(s, t, v)
    decreases |acts|
  {
    if |acts| > 0 {
      FollowsFrozen(c, Do(c, s, acts[0]), acts[1..], t, v);
    }
  }

  lemma AbsorbFrozen(c: Config, s: St, x: nat, r: Result, v: nat)
    requires Shape(c.g, s) && x < c.g.N() && v < c.g.N() && v != x
    ensures Frozen(s, Absorb(c, s, x, r), v)
  {
    AbsorbEffect(c, s, x, r);
  }

  lemma HandleFrozen(c: Config, s: St, e: Event, v: nat)
    requires Checked(c) && Inv(c, s) && e.node in s.workers && v < c.g.N() && s.state[v].IsTerminal()
    ensures e.node < c.g.N() && Frozen(s, Handle(c, s, e), v)
  {
    EventSource(c, s, e.node);
    var acts := HandleSteps(c, s, e);
    if s.state[e.node].IsTerminal() {
      hide Inv, Handle, Follows;
      FollowsFrozen(c, Receive(s, e.node), acts, Handle(c, s, e), v);
    } else {
      AbsorbFrozen(c, s, e.node, e.result, v);
      hide Inv, Absorb, Handle, Follows;
      FollowsFrozen(c, Absorb(c, s, e.node, e.result), acts, Handle(c, s, e), v);
    }
  }

  lemma {:induction false} RunFrozen(c: Config, evs: seq<Event>, ss: seq<St>, k: nat, i: nat, v: nat)
    requires Checked(c) && Trajectory(c, evs, ss) && k <= i <= |evs|
    requires v < |ss[k].state| && ss[k].state[v].IsTerminal()
    ensures Frozen(ss[k], ss[i], v)
    decreases i
  {
    hide AtHead, Passes, Start, Frozen;
    if i == k {
      TrajectoryAtHead(c, evs, ss, k);
      FrozenSelf(c, ss[k], v);
    } else {
      assert PassAt(c, evs, ss, i - 1);
      RunFrozen(c, evs, ss, k, i - 1, v);
      TrajectoryAtHead(c, evs, ss, i - 1);
      FrozenThen(c, ss[k], ss[i - 1], evs[i - 1], ss[i], v);
    }
  }

  lemma FrozenSelf(c: Config, s: St, v: nat)
    requires WellFormed(c.g) && AtHead(c, s) && v < |s.state|
    ensures Frozen(s, s, v)
  {
  }

  lemma FrozenThen(c: Config, s: St, t: St, e: Event, u: St, v: nat)
    requires Checked(c) && AtHead(c, t) && Passes(c, t, e, u)
    requires Frozen(s, t, v) && s.state[v].IsTerminal()
    ensures Frozen(s, u, v)
  {
    hide Inv, Handle, Poll;
    HandleFrozen(c, t, e, v);
  }

  lemma {:induction false} DrainFrozen(c: Config, s: St, vs: seq<nat>, v: nat)
    requires Checked(c) && Inv(c, s) && DrainFeasible(c.g, s, vs) && v < |s.state| && s.state[v].IsTerminal()
    ensures Frozen(s, Drain(c.g, s, vs), v)
    decreases |vs|
  {
    if |vs| == 0 {
      assert Shape(c.g, s);
    } else {
      DrainUnfold(c.g, s, vs);
      assert Shape(c.g, s) && vs[|vs| - 1] < c.g.N();
      hide Inv, Drain, DrainOne, Checked, Frozen;
      DrainFrozen(c, s, vs[..|vs| - 1], v);
      DrainOneFrozen(c.g, s, Drain(c.g, s, vs[..|vs| - 1]), vs[|vs| - 1], v);
    }
  }

  lemma DrainOneFrozen(g: Graph, s: St, t: St, x: nat, v: nat)
    requires Shape(g, t) && x < g.N() && Frozen(s, t, v) && s.state[v].IsTerminal()
    ensures Frozen(s, DrainOne(g, t, x), v)
  {
  }

  /** Nothing leaves a terminal state, neither later in the run (here: from event k to event i)
      nor in the drain of a cancellation after that: not the state, not the output, not the
      attempts. In particular skips and their winners are for ever. */
  lemma TerminalForever(c: Config, evs: seq<Event>, ss: seq<St>, k: nat, i: nat, vs: seq<nat>, v: nat)
    requires Checked(c) && Trajectory(c, evs, ss) && k <= i <= |evs|
    requires v < |ss[k].state| && ss[k].state[v].IsTerminal()
    requires Shape(c.g, ss[i]) && DrainFeasible(c.g, ss[i], vs)
    ensures Frozen(ss[k], Drain(c.g, ss[i], vs), v)
  {
    RunFrozen(c, evs, ss, k, i, v);
    TrajectoryAtHead(c, evs, ss, i);
    hide Trajectory, Inv, Drain, DrainFeasible, Checked, Promoted, WorkConserving, NothingReady;
    DrainFrozen(c, ss[i], vs, v);
  }

  /** The late event of a skipped node: its result is not looked at, its node does not change. */
  lemma StaleResultIgnored(c: Config, evs: seq<Event>, e: Event, other: Result)
    requires Checked(c) && Feasible(c, evs) && e.node in After(c, evs).workers && e.node < c.g.N()
    requires !After(c, evs).state[e.node].Running?
    ensures After(c, evs).state[e.node].Skipped?
    ensures Handle(c, After(c, evs), e) == Handle(c, After(c, evs), Event(e.node, other))
    ensures Frozen(After(c, evs), Handle(c, After(c, evs), e), e.node)
  {
    RunAtHead(c, evs);
    EventSource(c, After(c, evs), e.node);
    HandleFrozen(c, After(c, evs), e, e.node);
    hide Inv, Promoted, After, Feasible, Schedule;
  }

  // ---- no silent deadlock -----------------------------------------------------------------------

  /** No node is cancelled, and every dispatch is either in flight or one of the k received events. */
  ghost predicate Balanced(s: St, k: nat) {
    && (forall v :: 0 <= v < |s.state| ==> !s.state[v].Cancelled?)
    && |Dispatches(s.trace)| == s.inFlight + k
  }

  lemma {:induction false} FollowsBalanced(c: Config, s: St, acts: seq<Step>, t: St, k: nat)
    requires WellFormed(c.g) && Shape(c.g, s) && Follows(c, s, acts, t) && Balanced(s, k)
    ensures Balanced(t, k)
    decreases |acts|
  {
    if |acts| > 0 {
      StepBalanced(c, s, acts[0], k);
      hide Do, Enabled, Balanced;
      FollowsBalanced(c, Do(c, s, acts[0]), acts[1..], t, k);
    }
  }

  lemma StepBalanced(c: Config, s: St, a: Step, k: nat)
    requires WellFormed(c.g) && Shape(c.g, s) && Enabled(c, s, a) && Balanced(s, k)
    ensures Balanced(Do(c, s, a), k)
  {
    if !a.Round? {
      var t := Do(c, s, a);
      assert t.trace == s.trace + [t.trace[|s.trace|]];
      AppendMove(s.trace, t.trace[|s.trace|], a.v);
    }
  }

  lemma AbsorbBalanced(c: Config, s: St, v: nat, r: Result, k: nat)
    requires Shape(c.g, s) && Balanced(s, k) && v < c.g.N() && s.state[v].Running?
    ensures Balanced(Absorb(c, s, v, r), k + 1)
  {
    AbsorbEffect(c, s, v, r);
    AbsorbTrace(c, s, v, r);
    hide Absorb, Decide;
    if r.err == None {
      AppendMove(s.trace, SuccessMove(v), v);
    } else {
      AppendMove(s.trace, FailMove(v, r), v);
      AppendMove(s.trace + [FailMove(v, r)], DecisionMove(v, Decide(c.policy, s.attempt[v], r)), v);
    }
  }

  lemma {:induction false} RunBalanced(c: Config, evs: seq<Event>)
    requires Checked(c) && Feasible(c, evs)
    ensures Balanced(After(c, evs), |evs|)
    ensures After(c, evs).rounds == |evs| + 1
    decreases |evs|
  {
    assert InPlan(c.g, evs);
    hide After, Handle, Balanced, Inv, Promoted, Poll, Feasible;
    if |evs| == 0 {
      StartBalanced(c);
      assert evs == [];
    } else {
      var init, e := evs[..|evs| - 1], evs[|evs| - 1];
      SplitLast(evs);
      RunExtend(c, init, e);
      RunBalanced(c, init);
      RunAtHead(c, init);
      HandleBalanced(c, After(c, init), e, |init|);
    }
  }

  lemma StartBalanced(c: Config)
    requires Checked(c)
    ensures Balanced(After(c, []), 0) && After(c, []).rounds == 1
  {
    var acts := StartSteps(c);
    FollowsBalanced(c, Blank(c.g), acts, Start(c), 0);
  }

  lemma HandleBalanced(c: Config, s: St, e: Event, k: nat)
    requires Checked(c) && Inv(c, s) && Balanced(s, k) && e.node in s.workers
    ensures e.node < c.g.N() && Balanced(Handle(c, s, e), k + 1)
    ensures Handle(c, s, e).rounds == s.rounds + 1
  {
    EventSource(c, s, e.node);
    HandleRounds(c, s, e);
    var acts := HandleSteps(c, s, e);
    hide Inv, Handle, Follows, Absorb, Balanced;
    if s.state[e.node].IsTerminal() {
      ReceiveBalanced(s, e.node, k);
      FollowsBalanced(c, Receive(s, e.node), acts, Handle(c, s, e), k + 1);
    } else {
      AbsorbBalanced(c, s, e.node, e.result, k);
      FollowsBalanced(c, Absorb(c, s, e.node, e.result), acts, Handle(c, s, e), k + 1);
    }
  }

  lemma ReceiveBalanced(s: St, v: nat, k: nat)
    requires Balanced(s, k)
    ensures Balanced(Receive(s, v), k + 1)
  {
  }

  lemma HandleRounds(c: Config, s: St, e: Event)
    requires WellFormed(c.g) && Shape(c.g, s) && e.node < c.g.N()
    ensures Handle(c, s, e).rounds == s.rounds + 1
  {
    assert Absorb(c, s, e.node, e.result).rounds == s.rounds;
  }

  /** When an uncancelled run has returned, every unfinished node is pending, and what it waits
      for are failed or pending predecessors: all of them if any_of, at least one otherwise. */
  lemma StalledNode(c: Config, evs: seq<Event>, v: nat)
    requires Checked(c) && Returned(c, evs) && v < c.g.N() && !After(c, evs).state[v].IsTerminal()
    ensures var st := After(c, evs).state;
      && st[v].Pending? && c.g.preds[v] != []
      && (c.g.IsAny(v) ==> forall u :: u in c.g.preds[v] ==> st[u].Failed? || st[u].Pending?)
      && (exists u :: u in c.g.preds[v] && (st[u].Failed? || st[u].Pending?))
      && ((forall u :: u in c.g.preds[v] ==> !st[u].Pending?) ==> exists u :: u in c.g.preds[v] && st[u].Failed?)
  {
    var s := After(c, evs);
    RunAtHead(c, evs);
    RunBalanced(c, evs);
    PollIsQuiet(c, s);
    NothingRuns(c, s);
    hide Counted, Traced, Supplied, Isolated;
    assert Settled(s.state[v]);
    assert !DepsSatisfied(c.g, s.state, v);
    if c.g.IsAny(v) {
      forall u | u in c.g.preds[v]
        ensures s.state[u].Failed? || s.state[u].Pending?
      {
        EdgeBothWays(c.g, u, v);
        assert s.state[u].Skipped? ==> SafelySkipped(c.g, s.state, u);
        assert Settled(s.state[u]);
      }
      assert c.g.preds[v][0] in c.g.preds[v];
    } else {
      var u :| u in c.g.preds[v] && !s.state[u].IsTerminalSuccess();
      assert Settled(s.state[u]);
    }
  }

  lemma NothingRuns(c: Config, s: St)
    requires Accounted(c, s) && s.inFlight == 0
    ensures forall v :: 0 <= v < c.g.N() ==> !s.state[v].Running?
  {
    assert s.workers == multiset{};
  }

  lemma {:induction false} FailedAncestor(c: Config, evs: seq<Event>, rank: seq<nat>, v: nat) returns (f: nat)
    requires Checked(c) && IsRank(c.g, rank) && Returned(c, evs) && v < c.g.N()
    requires !After(c, evs).state[v].IsTerminal()
    ensures f < c.g.N() && After(c, evs).state[f].Failed? && Before(c.g, f, v)
    decreases rank[v]
  {
    StalledNode(c, evs, v);
    var u := BlockingPred(c.g, After(c, evs).state, v);
    hide Returned, Checked, After, Before;
    if After(c, evs).state[u].Failed? {
      f := u;
      BeforeEdge(c.g, u, v);
    } else {
      f := FailedAncestor(c, evs, rank, u);
      BeforeThenEdge(c.g, f, u, v);
    }
  }

  lemma BlockingPred(g: Graph, st: seq<NodeState>, v: nat) returns (u: nat)
    requires WellFormed(g) && |st| == g.N() && v < g.N()
    requires exists x :: x in g.preds[v] && (st[x].Failed? || st[x].Pending?)
    ensures u < g.N() && u in g.preds[v] && v in g.succs[u] && (st[u].Failed? || st[u].Pending?)
  {
    u :| u in g.preds[v] && (st[u].Failed? || st[u].Pending?);
    EdgeBothWays(g, u, v);
  }

  lemma BeforeEdge(g: Graph, u: nat, v: nat)
    requires WellFormed(g) && u < g.N() && v < g.N() && v in g.succs[u]
    ensures Before(g, u, v)
  {
    assert WalkFromTo(g.succs, [u, v], u, v);
  }

  lemma BeforeThenEdge(g: Graph, f: nat, u: nat, v: nat)
    requires WellFormed(g) && u < g.N() && v < g.N() && v in g.succs[u] && Before(g, f, u)
    ensures Before(g, f, v)
  {
    var w :| WalkFromTo(g.succs, w, f, u) && |w| >= 2;
    WalkExtend(g.succs, w, f, u, v);
  }

  /** No silent deadlock: a returned, uncancelled run of an acyclic plan leaves a node unfinished
      only behind a failed ancestor; so if nothing failed, everything is terminal. */
  lemma NoSilentDeadlock(c: Config, evs: seq<Event>)
    requires Checked(c) && Acyclic(c.g) && Returned(c, evs)
    ensures var st := After(c, evs).state;
      && (forall v :: 0 <= v < c.g.N() && !st[v].IsTerminal() ==>
            st[v].Pending? && exists f :: 0 <= f < c.g.N() && st[f].Failed? && Before(c.g, f, v))
      && ((forall v :: 0 <= v < c.g.N() ==> !st[v].Failed?) ==> AllTerminal(st))
  {
    var rank := AcyclicHasRank(c.g);
    var st := After(c, evs).state;
    forall v | 0 <= v < c.g.N() && !st[v].IsTerminal()
      ensures st[v].Pending? && exists f :: 0 <= f < c.g.N() && st[f].Failed? && Before(c.g, f, v)
    {
      StalledNode(c, evs, v);
      var f := FailedAncestor(c, evs, rank, v);
    }
  }

  /** Everything a failed node feeds does without it: skipped, or an any_of join with a winner. */
  ghost predicate NoVictim(g: Graph, st: seq<NodeState>)
    requires WellFormed(g) && |st| == g.N()
  {
    forall f, j :: 0 <= f < g.N() && st[f].Failed? && j in g.succs[f] ==> Spared(g, st, j)
  }

  ghost predicate Spared(g: Graph, st: seq<NodeState>, j: nat)
    requires WellFormed(g) && |st| == g.N() && j < g.N()
  {
    st[j].Skipped? || (g.IsAny(j) && HasExecutedPred(g, st, j))
  }

  /** The loop does not run until every node is terminal: it does exactly if no failed node leaves
      a successor behind. */
  lemma AllTerminalIff(c: Config, evs: seq<Event>)
    requires Checked(c) && Acyclic(c.g) && Returned(c, evs)
    ensures AllTerminal(After(c, evs).state) <==> NoVictim(c.g, After(c, evs).state)
  {
    var st := After(c, evs).state;
    RunAtHead(c, evs);
    RunBalanced(c, evs);
    if AllTerminal(st) {
      FinishedSpared(c, After(c, evs));
    } else {
      var v :| 0 <= v < |st| && !st[v].IsTerminal();
      var rank := AcyclicHasRank(c.g);
      hide After, Acyclic, AtHead;
      var f, j := Victim(c, evs, rank, v);
    }
  }

  lemma FinishedSpared(c: Config, s: St)
    requires WellFormed(c.g) && Inv(c, s) && AllTerminal(s.state)
    requires forall v :: 0 <= v < |s.state| ==> !s.state[v].Cancelled?
    ensures NoVictim(c.g, s.state)
  {
    assert Shape(c.g, s) && Joined(c.g, s);
    hide Inv, Joined, HasExecutedPred, EverReady;
    forall f, j | 0 <= f < c.g.N() && s.state[f].Failed? && j in c.g.succs[f]
      ensures Spared(c.g, s.state, j)
    {
      EdgeBothWays(c.g, f, j);
      assert s.state[j].IsTerminal();
      if !s.state[j].Skipped? { BegunMet(c.g, s, j); }
    }
  }

  lemma BegunMet(g: Graph, s: St, v: nat)
    requires WellFormed(g) && Shape(g, s) && Joined(g, s) && v < g.N() && Begun(s.state[v])
    ensures JoinMet(g, s.state, v)
  {
  }

  /** Behind an unfinished node there is a failed one with a successor that is not spared. */
  lemma {:induction false} Victim(c: Config, evs: seq<Event>, rank: seq<nat>, v: nat) returns (f: nat, j: nat)
    requires Checked(c) && IsRank(c.g, rank) && Returned(c, evs) && v < c.g.N()
    requires !After(c, evs).state[v].IsTerminal()
    ensures var st := After(c, evs).state;
      f < c.g.N() && st[f].Failed? && j in c.g.succs[f] && j < c.g.N() && !Spared(c.g, st, j)
    decreases rank[v]
  {
    StalledNode(c, evs, v);
    var st := After(c, evs).state;
    var u := BlockingPred(c.g, st, v);
    if st[u].Failed? {
      f, j := u, v;
    } else {
      hide Returned, After, Spared;
      f, j := Victim(c, evs, rank, u);
    }
  }

  // ---- termination ------------------------------------------------------------------------------

  ghost function AttemptBudget(p: Policy): nat {
    p.RetryCap() + p.PatchCap()
  }

  /** Attempt conservation: what a node has spent determines how often it was dispatched and how
      many log entries it has. */
  lemma AttemptConservation(c: Config, s: St, v: nat)
    requires Checked(c) && Reachable(c, s) && v < c.g.N()
    ensures var a, n := s.attempt[v], Launches(s.trace, v);
      && a.retries <= c.policy.RetryCap() && a.patches <= c.policy.PatchCap()
      && (s.state[v].Pending? ==> n == 0)
      && (s.state[v].Ready? ==> n == a.retries + a.patches)
      && (s.state[v].Running? || s.state[v].Executed? || s.state[v].Failed? ==> n == a.retries + a.patches + 1)
      && n <= 1 + AttemptBudget(c.policy) && |Proj(s.trace, v)| <= 4 + 3 * AttemptBudget(c.policy)
    ensures s.state[v].Failed? ==>
      && s.attempt[v].patches == c.policy.PatchCap()
      && (LastFailureTransient(Proj(s.trace, v)) ==> s.attempt[v].retries == c.policy.RetryCap())
  {
    ReachableInv(c, s);
    assert CountedNode(c.policy, s.state[v], s.attempt[v], Launches(s.trace, v), Proj(s.trace, v));
    assert Settled(s.state[v]);
  }

  lemma NodeBounds(c: Config, s: St, v: nat)
    requires WellFormed(c.g) && Inv(c, s) && v < c.g.N()
    ensures |Proj(Dispatches(s.trace), v)| <= 1 + AttemptBudget(c.policy)
    ensures |Proj(s.trace, v)| <= 4 + 3 * AttemptBudget(c.policy)
  {
    assert CountedNode(c.policy, s.state[v], s.attempt[v], Launches(s.trace, v), Proj(s.trace, v));
  }

  lemma TraceBounds(c: Config, s: St)
    requires Checked(c) && Inv(c, s)
    ensures |Dispatches(s.trace)| <= c.g.N() * (1 + AttemptBudget(c.policy))
    ensures |s.trace| <= c.g.N() * (4 + 3 * AttemptBudget(c.policy))
  {
    TraceInPlan(c, s);
    hide Inv, AttemptBudget, Proj, Dispatches, Checked;
    forall v | 0 <= v < c.g.N()
      ensures |Proj(Dispatches(s.trace), v)| <= 1 + AttemptBudget(c.policy)
      ensures |Proj(s.trace, v)| <= 4 + 3 * AttemptBudget(c.policy)
    {
      NodeBounds(c, s, v);
    }
    DispatchNodes(s.trace, c.g.N());
    LengthBound(s.trace, c.g.N(), 4 + 3 * AttemptBudget(c.policy));
    LengthBound(Dispatches(s.trace), c.g.N(), 1 + AttemptBudget(c.policy));
  }

  lemma TraceInPlan(c: Config, s: St)
    requires WellFormed(c.g) && Inv(c, s)
    ensures forall k :: 0 <= k < |s.trace| ==> s.trace[k].node < c.g.N()
  {
  }

  /** Termination: whatever the results and their order, an uncancelled run receives at most
      N * (1 + R + P) events, and its rounds, dispatches and log entries are bounded. */
  lemma RunIsBounded(c: Config, evs: seq<Event>)
    requires Checked(c) && Feasible(c, evs)
    ensures var s, b := After(c, evs), c.policy.RetryCap() + c.policy.PatchCap();
      && s.rounds == |evs| + 1
      && |Dispatches(s.trace)| == |evs| + |s.workers|
      && |Dispatches(s.trace)| <= c.g.N() * (1 + b)
      && |s.trace| <= c.g.N() * (4 + 3 * b)
  {
    hide Inv, Promoted, Poll, After;
    RunAtHead(c, evs);
    RunBalanced(c, evs);
    TraceBounds(c, After(c, evs));
    InFlightIsWorkers(c, After(c, evs));
  }

  lemma InFlightIsWorkers(c: Config, s: St)
    requires WellFormed(c.g) && Inv(c, s)
    ensures s.inFlight == |s.workers|
  {
  }

  /** And a run that has not returned can go on: some worker is outstanding, and its event is
      accepted whatever its result. */
  lemma RunContinues(c: Config, evs: seq<Event>) returns (v: nat)
    requires Checked(c) && Feasible(c, evs) && !Returned(c, evs)
    ensures v < c.g.N() && forall r :: Feasible(c, evs + [Event(v, r)])
  {
    hide Inv, Promoted, After, Poll;
    RunAtHead(c, evs);
    PollIsQuiet(c, After(c, evs));
    v := SomeWorker(c, After(c, evs));
    forall r
      ensures Feasible(c, evs + [Event(v, r)])
    {
      FeasibleExtend(c, evs, Event(v, r));
    }
  }

  ghost function MaxEvents(c: Config): nat {
    c.g.N() * (1 + (c.policy.RetryCap() + c.policy.PatchCap()))
  }

  /** `full` continues evs with results that pick gives, each from the events before it. */
  ghost predicate Continues(evs: seq<Event>, full: seq<Event>, pick: (seq<Event>, nat) -> Result) {
    evs <= full && forall i :: |evs| <= i < |full| ==> full[i].result == pick(full[..i], full[i].node)
  }

  /** So every run returns: as long as outstanding workers keep reporting, with whatever results
      `pick` makes of the run so far, any run is completed within the bound. */
  lemma {:induction false} RunCompletes(c: Config, evs: seq<Event>, pick: (seq<Event>, nat) -> Result)
    returns (full: seq<Event>)
    requires Checked(c) && Feasible(c, evs)
    ensures Returned(c, full) && Continues(evs, full, pick) && |full| <= MaxEvents(c)
    decreases MaxEvents(c) + 1 - |evs|
  {
    assert WellFormed(c.g);
    hide *;
    EventsBound(c, evs);
    if Returned(c, evs) {
      full := evs;
      ContinuesSelf(evs, pick);
    } else {
      var v := RunContinues(c, evs);
      var e := Event(v, pick(evs, v));
      EventsBound(c, evs + [e]);
      full := RunCompletes(c, evs + [e], pick);
      ContinuesMore(evs, e, full, pick);
    }
  }

  lemma ContinuesSelf(evs: seq<Event>, pick: (seq<Event>, nat) -> Result)
    ensures Continues(evs, evs, pick)
  {
  }

  lemma ContinuesMore(evs: seq<Event>, e: Event, full: seq<Event>, pick: (seq<Event>, nat) -> Result)
    requires e.result == pick(evs, e.node) && Continues(evs + [e], full, pick)
    ensures Continues(evs, full, pick)
  {
    assert (evs + [e])[|evs|] == e == full[|evs|];
    assert full[..|evs|] == (evs + [e])[..|evs|] == evs;
  }

  lemma EventsBound(c: Config, evs: seq<Event>)
    requires Checked(c) && Feasible(c, evs)
    ensures |evs| <= MaxEvents(c)
  {
    hide After, Dispatches, Checked, Feasible;
    RunIsBounded(c, evs);
  }

  lemma SomeWorker(c: Config, s: St) returns (v: nat)
    requires WellFormed(c.g) && Inv(c, s) && s.inFlight > 0
    ensures v in s.workers && v < c.g.N()
  {
    assert s.workers != multiset{};
    v :| v in s.workers;
  }

  // ---- the meaning of success -------------------------------------------------------------------

  /** A walk from an entry node to v all of whose nodes are executed. */
  ghost predicate ExecutedWalk(g: Graph, st: seq<NodeState>, w: seq<nat>, v: nat)
    requires WellFormed(g) && |st| == g.N()
  {
    && IsWalk(g.succs, w) && w[|w| - 1] == v && g.preds[w[0]] == []
    && forall i :: 0 <= i < |w| ==> st[w[i]].Executed?
  }

  lemma {:induction false} ExecutedHasWalk(c: Config, s: St, rank: seq<nat>, v: nat) returns (w: seq<nat>)
    requires WellFormed(c.g) && Inv(c, s) && IsRank(c.g, rank) && v < c.g.N() && s.state[v].Executed?
    ensures ExecutedWalk(c.g, s.state, w, v)
    decreases rank[v]
  {
    if c.g.preds[v] == [] {
      w := [v];
    } else {
      var u := ExecutedPredecessor(c, s, v);
      EdgeBothWays(c.g, u, v);
      hide Inv, WellFormed, ExecutedWalk;
      var w' := ExecutedHasWalk(c, s, rank, u);
      ExecutedWalkExtend(c.g, s.state, w', u, v);
      w := w' + [v];
    }
  }

  lemma ExecutedWalkExtend(g: Graph, st: seq<NodeState>, w: seq<nat>, u: nat, v: nat)
    requires WellFormed(g) && |st| == g.N() && ExecutedWalk(g, st, w, u)
    requires v < g.N() && v in g.succs[u] && st[v].Executed?
    ensures ExecutedWalk(g, st, w + [v], v)
  {
  }

  lemma ExecutedPredecessor(c: Config, s: St, v: nat) returns (u: nat)
    requires WellFormed(c.g) && Inv(c, s) && v < c.g.N() && s.state[v].Executed? && c.g.preds[v] != []
    ensures u in c.g.preds[v] && s.state[u].Executed?
  {
    assert JoinMet(c.g, s.state, v);
    assert c.g.preds[v][0] in c.g.preds[v];
    u :| u in c.g.preds[v] && s.state[u].Executed?;
  }

  /** Success means: every node executed or skipped; then every exit node is executed, and every
      executed node is reached from an entry node through executed nodes. */
  lemma MeaningOfSuccess(c: Config, s: St)
    requires Checked(c) && Acyclic(c.g) && Reachable(c, s)
    ensures Succeeded(s.state) <==>
      forall v :: 0 <= v < c.g.N() ==> s.state[v].Executed? || s.state[v].Skipped?
    ensures Succeeded(s.state) ==>
      forall v :: 0 <= v < c.g.N() && c.g.succs[v] == [] ==> s.state[v].Executed?
    ensures forall v :: 0 <= v < c.g.N() && s.state[v].Executed? ==>
      exists w :: ExecutedWalk(c.g, s.state, w, v)
  {
    ReachableInv(c, s);
    hide Inv, Reachable, Checked, ExecutedWalk, Succeeded;
    SuccessStates(c, s);
    var rank := AcyclicHasRank(c.g);
    hide Acyclic;
    forall v | 0 <= v < c.g.N() && s.state[v].Executed?
      ensures exists w :: ExecutedWalk(c.g, s.state, w, v)
    {
      var w := ExecutedHasWalk(c, s, rank, v);
    }
  }

  lemma SuccessStates(c: Config, s: St)
    requires WellFormed(c.g) && Inv(c, s)
    ensures Succeeded(s.state) <==>
      forall v :: 0 <= v < c.g.N() ==> s.state[v].Executed? || s.state[v].Skipped?
    ensures Succeeded(s.state) ==>
      forall v :: 0 <= v < c.g.N() && c.g.succs[v] == [] ==> s.state[v].Executed?
  {
    hide Accounted, Isolated, Counted, Traced, Supplied, HasExecutedPred, JoinMet, EverReady;
    assert forall v :: 0 <= v < c.g.N() && s.state[v].Skipped? ==> SafelySkipped(c.g, s.state, v);
  }

  // ---- cancellation -----------------------------------------------------------------------------

  ghost predicate Drained(s: St, t: St, vs: seq<nat>) {
    && |t.state| == |s.state|
    && t.workers + multiset(vs) == s.workers
    && forall v :: 0 <= v < |s.state| ==>
         t.state[v] == if v in vs && s.state[v].Running? then Cancelled else s.state[v]
  }

  lemma {:induction false} DrainEffect(c: Config, s: St, vs: seq<nat>)
    requires Checked(c) && Inv(c, s) && DrainFeasible(c.g, s, vs)
    ensures Drained(s, Drain(c.g, s, vs), vs)
    decreases |vs|
  {
    if |vs| == 0 {
      DrainedNone(s);
    } else {
      var init, v := vs[..|vs| - 1], vs[|vs| - 1];
      DrainEffect(c, s, init);
      DrainedSource(c, s, init, v);
      DrainUnfold(c.g, s, vs);
      SplitLast(vs);
      hide Inv, Drained, DrainOne, Drain, DrainFeasible, Checked, WellFormed;
      DrainOneMore(c.g, s, Drain(c.g, s, init), init, v);
    }
  }

  lemma DrainUnfold(g: Graph, s: St, vs: seq<nat>)
    requires Shape(g, s) && |vs| > 0 && forall i :: 0 <= i < |vs| ==> vs[i] < g.N()
    ensures Drain(g, s, vs) == DrainOne(g, Drain(g, s, vs[..|vs| - 1]), vs[|vs| - 1])
  {
    hide DrainOne;
  }

  lemma DrainedNone(s: St)
    ensures Drained(s, s, [])
  {
  }

  lemma DrainedSource(c: Config, s: St, vs: seq<nat>, v: nat)
    requires Checked(c) && Inv(c, s) && DrainFeasible(c.g, s, vs) && v in Drain(c.g, s, vs).workers
    ensures v < c.g.N()
    ensures var t := Drain(c.g, s, vs); t.state[v].Running? || t.state[v].Skipped?
  {
    DrainInv(c, s, vs);
    EventSource(c, Drain(c.g, s, vs), v);
  }

  lemma DrainOneMore(g: Graph, s: St, t: St, vs: seq<nat>, v: nat)
    requires Shape(g, s) && Shape(g, t) && Drained(s, t, vs) && v < g.N() && v in t.workers
    requires t.state[v].Running? || t.state[v].Skipped?
    ensures Drained(s, DrainOne(g, t, v), vs + [v])
  {
    var u := DrainOne(g, t, v);
    assert u.workers + multiset(vs + [v]) == s.workers;
    assert forall x: nat :: x in vs + [v] <==> x in vs || x == v;
  }

  /** If the drain after a cancellation ends, nothing runs: exactly the running nodes became
      cancelled, and the run does not report success. */
  lemma CancelledRun(c: Config, evs: seq<Event>, vs: seq<nat>)
    requires Checked(c) && Feasible(c, evs) && Poll(c, After(c, evs)).Wait?
    requires DrainFeasible(c.g, After(c, evs), vs) && Drain(c.g, After(c, evs), vs).inFlight == 0
    ensures var s, t := After(c, evs), Drain(c.g, After(c, evs), vs);
      && t.workers == multiset{} && !Succeeded(t.state)
      && forall v :: 0 <= v < c.g.N() ==> t.state[v] == if s.state[v].Running? then Cancelled else s.state[v]
  {
    var s := After(c, evs);
    RunAtHead(c, evs);
    PollIsQuiet(c, s);
    DrainEffect(c, s, vs);
    DrainInv(c, s, vs);
    hide After, Drain, Feasible, DrainFeasible, Isolated, Joined, Counted, Traced, Supplied, Promoted, Poll;
    DrainedAll(c, s, Drain(c.g, s, vs), vs);
  }

  lemma DrainedAll(c: Config, s: St, t: St, vs: seq<nat>)
    requires Accounted(c, s) && Accounted(c, t) && Drained(s, t, vs) && t.inFlight == 0
    ensures t.workers == multiset{}
    ensures forall v :: 0 <= v < c.g.N() ==> t.state[v] == if s.state[v].Running? then Cancelled else s.state[v]
    ensures !AllTerminal(s.state) ==> !Succeeded(t.state)
  {
    assert t.workers == multiset{};
    forall v | 0 <= v < c.g.N()
      ensures t.state[v] == if s.state[v].Running? then Cancelled else s.state[v]
    {
      assert s.state[v].Running? ==> multiset(vs)[v] == 1;
    }
    if !AllTerminal(s.state) {
      var v :| 0 <= v < |s.state| && !s.state[v].IsTerminal();
      assert !t.state[v].IsTerminal() || t.state[v].Cancelled?;
    }
  }

  // ---- parallelism: plans without any_of --------------------------------------------------------

  ghost predicate AllOfOnly(g: Graph) {
    forall v :: 0 <= v < g.N() ==> !g.IsAny(v)
  }

  /** No two members lie on a common path. */
  ghost predicate Antichain(g: Graph, a: set<nat>) {
    (forall v :: v in a ==> v < g.N()) && forall u, v :: u in a && v in a ==> !Before(g, u, v)
  }

  lemma {:induction false} NoSkips(c: Config, s: St, rank: seq<nat>, v: nat)
    requires WellFormed(c.g) && AllOfOnly(c.g) && Inv(c, s) && IsRank(c.g, rank) && v < c.g.N()
    ensures !s.state[v].Skipped?
    decreases Validate.MaxRank(rank) - rank[v]
  {
    if s.state[v].Skipped? {
      assert SafelySkipped(c.g, s.state, v);
      hide Inv;
      var j := c.g.succs[v][0];
      assert j in c.g.succs[v];
      EdgeBothWays(c.g, v, j);
      NoSkips(c, s, rank, j);
    }
  }

  lemma {:induction false} AncestorsExecuted(c: Config, s: St, w: seq<nat>)
    requires WellFormed(c.g) && AllOfOnly(c.g) && Inv(c, s) && IsWalk(c.g.succs, w) && |w| >= 2
    requires Begun(s.state[w[|w| - 1]])
    ensures s.state[w[0]].Executed?
    decreases |w|
  {
    var k := |w| - 2;
    assert w[k + 1] in c.g.succs[w[k]];
    EdgeBothWays(c.g, w[k], w[k + 1]);
    hide Inv, AllOfOnly, WellFormed;
    BegunPred(c, s, w[k], w[k + 1]);
    if k > 0 {
      assert IsWalk(c.g.succs, w[..k + 1]);
      AncestorsExecuted(c, s, w[..k + 1]);
    }
  }

  lemma BegunPred(c: Config, s: St, u: nat, v: nat)
    requires WellFormed(c.g) && AllOfOnly(c.g) && Inv(c, s) && v < c.g.N() && u in c.g.preds[v] && Begun(s.state[v])
    ensures u < c.g.N() && s.state[u].Executed?
  {
    assert JoinMet(c.g, s.state, v);
  }

  ghost function Active(s: St): set<nat> {
    set v | 0 <= v < |s.state| && (s.state[v].Ready? || s.state[v].Running?)
  }

  lemma ActiveAntichain(c: Config, s: St)
    requires WellFormed(c.g) && AllOfOnly(c.g) && Inv(c, s)
    ensures Antichain(c.g, Active(s))
  {
    forall u, v | u in Active(s) && v in Active(s)
      ensures !Before(c.g, u, v)
    {
      if Before(c.g, u, v) {
        var w :| WalkFromTo(c.g.succs, w, u, v) && |w| >= 2;
        AncestorsExecuted(c, s, w);
      }
    }
  }

  /** The number of ready nodes that round i observes, before it dispatches. */
  ghost function RoundReady(c: Config, evs: seq<Event>, ss: seq<St>, i: nat): nat
    requires WellFormed(c.g) && Trajectory(c, evs, ss) && i <= |evs|
  {
    |ReadyNodes(RoundState(c, evs, ss, i).state, c.g.N())|
  }

  ghost function RoundState(c: Config, evs: seq<Event>, ss: seq<St>, i: nat): (r: St)
    requires WellFormed(c.g) && Trajectory(c, evs, ss) && i <= |evs|
    ensures Shape(c.g, r)
  {
    if i == 0 then SeedFrom(c.g, Blank(c.g), 0)
    else
      assert PassAt(c, evs, ss, i - 1);
      Observed(c, ss[i - 1], evs[i - 1])
  }

  lemma SeedPeak(c: Config)
    requires WellFormed(c.g)
    ensures Start(c).maxReady == |ReadyNodes(SeedFrom(c.g, Blank(c.g), 0).state, c.g.N())|
  {
    assert Blank(c.g).maxReady == 0;
    CountsReady(SeedFrom(c.g, Blank(c.g), 0).state, c.g.N());
    hide SeedFrom, Blank, Schedule, ReadyUpTo, ReadyNodes, WellFormed;
  }

  lemma PassPeak(c: Config, s: St, e: Event, t: St)
    requires Checked(c) && AtHead(c, s) && Passes(c, s, e, t)
    ensures Inv(c, Observed(c, s, e))
    ensures var r := |ReadyNodes(Observed(c, s, e).state, c.g.N())|;
      t.maxReady == if r > s.maxReady then r else s.maxReady
  {
    CountsReady(Observed(c, s, e).state, c.g.N());
    hide Inv, Observed, Poll, ReadyUpTo, ReadyNodes;
    ObservedInv(c, s, e);
  }

  /** Every round adds its ready count to the peak. */
  lemma RoundPeak(c: Config, evs: seq<Event>, ss: seq<St>, i: nat)
    requires Checked(c) && Trajectory(c, evs, ss) && i <= |evs|
    ensures Inv(c, RoundState(c, evs, ss, i))
    ensures var r := RoundReady(c, evs, ss, i);
      ss[i].maxReady == if i == 0 || r > ss[i - 1].maxReady then r else ss[i - 1].maxReady
  {
    hide Passes, AtHead, Observed, Inv, ReadyNodes, Start, SeedFrom, Blank;
    if i == 0 {
      SeedInv(c);
      SeedPeak(c);
    } else {
      assert PassAt(c, evs, ss, i - 1);
      TrajectoryAtHead(c, evs, ss, i - 1);
      PassPeak(c, ss[i - 1], evs[i - 1], ss[i]);
    }
  }

  /** MaxReady is the largest number of ready nodes that any round so far observed. */
  lemma {:induction false} PeakIsMaximum(c: Config, evs: seq<Event>, ss: seq<St>, n: nat) returns (k: nat)
    requires Checked(c) && Trajectory(c, evs, ss) && n <= |evs|
    ensures k <= n && ss[n].maxReady == RoundReady(c, evs, ss, k) && Inv(c, RoundState(c, evs, ss, k))
    ensures forall i :: 0 <= i <= n ==> RoundReady(c, evs, ss, i) <= ss[n].maxReady
    decreases n
  {
    hide Start, PassAt, RoundReady, RoundState, Inv;
    RoundPeak(c, evs, ss, n);
    k := n;
    if n > 0 {
      var k' := PeakIsMaximum(c, evs, ss, n - 1);
      if RoundReady(c, evs, ss, n) <= ss[n - 1].maxReady { k := k'; }
    }
  }

  /** In a plan without any_of nothing is skipped, the ready and running nodes form an antichain,
      and the reported peak is the size of an antichain: it never exceeds the plan's width. */
  lemma ParallelismIsWidth(c: Config, evs: seq<Event>)
    requires Checked(c) && Acyclic(c.g) && AllOfOnly(c.g) && Feasible(c, evs)
    ensures forall v :: 0 <= v < c.g.N() ==> !After(c, evs).state[v].Skipped?
    ensures Antichain(c.g, Active(After(c, evs)))
    ensures exists a :: Antichain(c.g, a) && |a| == After(c, evs).maxReady
  {
    RunAtHead(c, evs);
    var ss := TrajectoryOf(c, evs);
    hide Inv, Promoted, After, Trajectory, RoundState, Antichain, Feasible;
    var rank := AcyclicHasRank(c.g);
    forall v | 0 <= v < c.g.N()
      ensures !After(c, evs).state[v].Skipped?
    {
      NoSkips(c, After(c, evs), rank, v);
    }
    ActiveAntichain(c, After(c, evs));
    var k := PeakIsMaximum(c, evs, ss, |evs|);
    ReadyAntichain(c, RoundState(c, evs, ss, k));
  }

  lemma ReadyAntichain(c: Config, s: St)
    requires WellFormed(c.g) && AllOfOnly(c.g) && Inv(c, s)
    ensures exists a :: Antichain(c.g, a) && |a| == |ReadyNodes(s.state, c.g.N())|
  {
    ActiveAntichain(c, s);
    var r := ReadyNodes(s.state, c.g.N());
    assert r <= Active(s);
    assert Antichain(c.g, r);
  }

  // ---- the log ----------------------------------------------------------------------------------

  /** Each entry is one of the coded state changes, with its text, and starts where its node's previous
      entry ended (at pending if it is the first). */
  ghost predicate EntriesChain(es: seq<Wal.Entry>) {
    forall k :: 0 <= k < |es| ==>
      && es[k].from == LookUp(Rebuild(es[..k]), es[k].nodeId)
      && !es[k].from.IsTerminal() && LegalEntry(es[k])
  }

  lemma LegalWritten(g: Graph, run: string, t: seq<Move>, k: nat)
    requires Chained(t, g.N()) && k < |t|
    ensures var e := Render(g, run, t)[k]; LegalEntry(e) && !e.from.IsTerminal()
  {
    assert LegalMove(t[k]);
    WrittenAs(g, run, t, k);
  }

  lemma RenderedChain(g: Graph, run: string, t: seq<Move>)
    requires UniqueIds(g.nodes) && Chained(t, g.N())
    ensures EntriesChain(Render(g, run, t))
  {
    var es := Render(g, run, t);
    forall k | 0 <= k < |es|
      ensures es[k].from == LookUp(Rebuild(es[..k]), es[k].nodeId) && !es[k].from.IsTerminal() && LegalEntry(es[k])
    {
      LegalWritten(g, run, t, k);
      assert es[..k] == Render(g, run, t[..k]);
      RebuildState(g, run, t[..k], t[k].node);
    }
  }

  /** If the run's own entries in a log are its rendered trace, then whatever other runs have
      written in between, replay returns them numbered 0, 1, 2, ... and chained, and folding them
      gives the live state of every node. */
  lemma WalRefinement(c: Config, s: St, log: seq<Wal.Entry>, v: nat)
    requires Checked(c) && Reachable(c, s) && v < c.g.N()
    requires (forall k :: 0 <= k < |s.trace| ==> s.trace[k].node < c.g.N())
      && Wal.FilterRun(log, c.run) == Render(c.g, c.run, s.trace)
    ensures var es := Wal.Replayed(log, c.run);
      && |es| == |s.trace|
      && (forall k :: 0 <= k < |es| ==> es[k].seqNo == k && es[k].runId == c.run)
      && EntriesChain(es)
      && LookUp(Rebuild(es), c.g.nodes[v].id) == s.state[v]
  {
    ReachableInv(c, s);
    TraceOfInv(c, s, v);
    hide Inv, Reachable, Checked, Chained, EntriesChain;
    RenderedReplay(c.g, c.run, s.trace, log, v);
  }

  lemma TraceOfInv(c: Config, s: St, v: nat)
    requires WellFormed(c.g) && Inv(c, s) && v < c.g.N()
    ensures Chained(s.trace, c.g.N()) && StateAfter(s.trace, v) == s.state[v] && UniqueIds(c.g.nodes)
  {
  }

  lemma RenderedReplay(g: Graph, run: string, t: seq<Move>, log: seq<Wal.Entry>, v: nat)
    requires UniqueIds(g.nodes) && Chained(t, g.N()) && v < g.N()
    requires Wal.FilterRun(log, run) == Render(g, run, t)
    ensures var es := Wal.Replayed(log, run);
      && |es| == |t|
      && (forall k :: 0 <= k < |es| ==> es[k].seqNo == k && es[k].runId == run)
      && EntriesChain(es)
      && LookUp(Rebuild(es), g.nodes[v].id) == StateAfter(t, v)
  {
    RenderedRun(g, run, t);
    assert Wal.Replayed(log, run) == Render(g, run, t);
    RenderedChain(g, run, t);
    hide EntriesChain, Rebuild, Chained;
    RebuildState(g, run, t, v);
  }

  /** Crash recovery: cut the log file at any byte, with other runs' entries in it or not; replay
      gives back the run's trace up to some move, and folding it gives every node the state it had
      then. Nothing is lost if nothing was cut. */
  lemma CrashRecovery(c: Config, s: St, codec: Wal.Codec, log: seq<Wal.Entry>, k: nat, v: nat) returns (m: nat)
    requires Checked(c) && Reachable(c, s) && v < c.g.N() && Wal.GoodCodec(codec) && k <= |Wal.Image(codec, log)|
    requires Wal.RecordsFit(codec, log)
    requires (forall i :: 0 <= i < |s.trace| ==> s.trace[i].node < c.g.N())
      && Wal.FilterRun(log, c.run) == Render(c.g, c.run, s.trace)
    ensures Wal.Complete(codec, log, k) <= |log|
    ensures m == |Wal.FilterRun(log[..Wal.Complete(codec, log, k)], c.run)| <= |s.trace|
    ensures Wal.FileReplay(codec, Wal.Image(codec, log)[..k], c.run) ==
      Wal.Entries(Render(c.g, c.run, s.trace[..m]))
    ensures LookUp(Rebuild(Render(c.g, c.run, s.trace[..m])), c.g.nodes[v].id) == StateAfter(s.trace[..m], v)
    ensures k == |Wal.Image(codec, log)| ==> m == |s.trace| && StateAfter(s.trace[..m], v) == s.state[v]
  {
    ReachableInv(c, s);
    TraceOfInv(c, s, v);
    hide *;
    m := CutReplay(c.g, c.run, s.trace, codec, log, k, v);
    assert m == |s.trace| ==> s.trace[..m] == s.trace;
  }

  lemma CutReplay(g: Graph, run: string, t: seq<Move>, codec: Wal.Codec, log: seq<Wal.Entry>, k: nat, v: nat)
    returns (m: nat)
    requires UniqueIds(g.nodes) && v < g.N() && Wal.GoodCodec(codec) && k <= |Wal.Image(codec, log)|
    requires Wal.RecordsFit(codec, log)
    requires (forall i :: 0 <= i < |t| ==> t[i].node < g.N()) && Wal.FilterRun(log, run) == Render(g, run, t)
    ensures Wal.Complete(codec, log, k) <= |log|
    ensures m == |Wal.FilterRun(log[..Wal.Complete(codec, log, k)], run)| <= |t|
    ensures Wal.FileReplay(codec, Wal.Image(codec, log)[..k], run) == Wal.Entries(Render(g, run, t[..m]))
    ensures LookUp(Rebuild(Render(g, run, t[..m])), g.nodes[v].id) == StateAfter(t[..m], v)
    ensures k == |Wal.Image(codec, log)| ==> m == |t|
  {
    Wal.CompleteBound(codec, log, k);
    Wal.TornTailRecovery(codec, log, k, run);
    m := RenderedPrefix(g, run, t, log, Wal.Complete(codec, log, k));
    assert forall i :: 0 <= i < m ==> t[..m][i].node < g.N();
    hide Rebuild, StateAfter, UniqueIds, Render, Wal.GoodCodec, Wal.RecordsFit, Wal.Fits, Wal.Image, Wal.FileReplay,
      Wal.Replayed, Wal.FilterRun, Wal.Complete;
    RebuildState(g, run, t[..m], v);
  }

  lemma RenderedPrefix(g: Graph, run: string, t: seq<Move>, log: seq<Wal.Entry>, n: nat) returns (m: nat)
    requires n <= |log| && (forall i :: 0 <= i < |t| ==> t[i].node < g.N())
    requires Wal.FilterRun(log, run) == Render(g, run, t)
    ensures m == |Wal.FilterRun(log[..n], run)| <= |t| && (n == |log| ==> m == |t|)
    ensures Wal.Replayed(log[..n], run) == Render(g, run, t[..m])
  {
    var kept := Wal.FilterRun(log[..n], run);
    m := |kept|;
    Wal.FilterAppend(log[..n], log[n..], run);
    assert log[..n] + log[n..] == log;
    assert n == |log| ==> log[..n] == log;
    assert kept == Render(g, run, t)[..m] == Render(g, run, t[..m]);
    RenderedRun(g, run, t[..m]);
  }
}
