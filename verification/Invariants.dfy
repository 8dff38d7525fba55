/** The inductive invariant of the event loop, in five parts: worker accounting, destructive
    isolation, the joins, the attempt counters, and the trace. */
module Invariants {
  import opened Plans
  import opened Graphs
  import opened Recovery
  import opened Traces
  import opened Machine
  import opened Steps

  /** What `Run` knows of its plan and options once it starts (scheduler.go:69-79), apart from
      acyclicity, which the step-wise invariant does not need. */
  ghost predicate Checked(c: Config) {
    && WellFormed(c.g) && c.maxParallel >= 1
    && forall v, j :: 0 <= v < c.g.N() && 0 <= j < c.g.N() && v in c.g.preds[j] ==>
         !(c.g.IsDestructive(v) && c.g.IsAny(j))
  }

  // ---- worker accounting -----------------------------------------------------------------

  predicate Settled(st: NodeState) {
    !st.FailedRetryable? && !st.WaitingHuman? && !st.Blocked?
  }

  ghost predicate Accounted(c: Config, s: St) {
    && Shape(c.g, s)
    && s.inFlight == |s.workers| && s.inFlight <= c.maxParallel
    && (forall v: nat :: s.workers[v] <= 1)
    && (forall v: nat :: s.workers[v] > 0 ==> v < c.g.N() && (s.state[v].Running? || s.state[v].Skipped?))
    && (forall v :: 0 <= v < c.g.N() && s.state[v].Running? ==> s.workers[v] == 1)
    && (forall v :: 0 <= v < c.g.N() ==> Settled(s.state[v]))
  }

  lemma StepAccounted(c: Config, s: St, a: Step)
    requires Checked(c) && Accounted(c, s) && Enabled(c, s, a)
    ensures Accounted(c, Do(c, s, a))
  {
  }

  /** What absorbing a result changes besides counters and trace. */
  lemma AbsorbEffect(c: Config, s: St, v: nat, r: Result)
    requires Shape(c.g, s) && v < c.g.N()
    ensures var t := Absorb(c, s, v, r);
      && t.inFlight == s.inFlight - 1 && t.workers == s.workers - multiset{v} && t.job == s.job
      && t.state == s.state[v := t.state[v]]
      && t.output == (if r.err == None then s.output[v := r.output] else s.output)
      && (t.state[v].Executed? <==> r.err == None)
      && (t.state[v].Executed? || t.state[v].Ready? || t.state[v].Failed?)
  {
    var s1 := Transition(c.g, Receive(s, v), v, FailedRetryable, FailTrigger(r), "");
    assert s1.state[v := Ready] == s.state[v := Ready] && s1.state[v := Failed] == s.state[v := Failed];
  }

  lemma AbsorbAccounted(c: Config, s: St, v: nat, r: Result)
    requires Checked(c) && Accounted(c, s) && v in s.workers && !s.state[v].IsTerminal()
    ensures Accounted(c, Absorb(c, s, v, r))
  {
    AbsorbEffect(c, s, v, r);
    hide Absorb, Checked;
  }

  // ---- destructive isolation ---------------------------------------------------------------

  ghost predicate Isolated(c: Config, s: St)
    requires Shape(c.g, s)
  {
    && (forall d :: 0 <= d < c.g.N() && c.g.IsDestructive(d) && s.workers[d] > 0 ==> |s.workers| == 1)
    && (forall d :: 0 <= d < c.g.N() && c.g.IsDestructive(d) ==> !s.state[d].Skipped?)
  }

  lemma StepIsolated(c: Config, s: St, a: Step)
    requires Checked(c) && Accounted(c, s) && Isolated(c, s) && Enabled(c, s, a)
    ensures Isolated(c, Do(c, s, a))
  {
    if a.Launch? {
      assert forall d :: 0 <= d < c.g.N() && c.g.IsDestructive(d) && s.workers[d] > 0 ==> s.state[d].Running?;
    }
  }

  lemma OthersInFlight(m: multiset<nat>, v: nat)
    requires v in m
    ensures forall d: nat :: d != v && d in m ==> |m| >= 2
  {
    forall d: nat | d != v && d in m
      ensures |m| >= 2
    {
      assert m == m - multiset{v} - multiset{d} + multiset{v} + multiset{d};
    }
  }

  lemma AbsorbIsolated(c: Config, s: St, v: nat, r: Result)
    requires Checked(c) && Accounted(c, s) && Isolated(c, s) && v in s.workers && !s.state[v].IsTerminal()
    ensures Isolated(c, Absorb(c, s, v, r))
  {
    AbsorbEffect(c, s, v, r);
    OthersInFlight(s.workers, v);
  }

  // ---- joins -----------------------------------------------------------------------------------

  /** The join of v is met by executed predecessors alone. */
  ghost predicate JoinMet(g: Graph, st: seq<NodeState>, v: nat)
    requires WellFormed(g) && |st| == g.N() && v < g.N()
  {
    if g.IsAny(v) then g.preds[v] == [] || HasExecutedPred(g, st, v)
    else forall u :: u in g.preds[v] ==> st[u].Executed?
  }

  /** A skipped node is missed by nobody: its any_of successors have a winner, its all_of
      successors are skipped too. */
  ghost predicate SafelySkipped(g: Graph, st: seq<NodeState>, v: nat)
    requires WellFormed(g) && |st| == g.N() && v < g.N()
  {
    g.succs[v] != [] && forall j :: j in g.succs[v] ==>
      if g.IsAny(j) then HasExecutedPred(g, st, j) else st[j].Skipped?
  }

  predicate Begun(st: NodeState) {
    st.Ready? || st.Running? || st.Executed? || st.Failed? || st.Cancelled?
  }

  ghost predicate Joined(g: Graph, s: St)
    requires WellFormed(g) && Shape(g, s)
  {
    && (forall v :: 0 <= v < g.N() && s.state[v].Skipped? ==> SafelySkipped(g, s.state, v))
    && (forall v :: 0 <= v < g.N() && Begun(s.state[v]) ==> EverReady(s.trace, v))
    && (forall v :: 0 <= v < g.N() && EverReady(s.trace, v) ==> JoinMet(g, s.state, v))
  }

  /** Executed and skipped nodes stay so. */
  predicate Keeps(st: seq<NodeState>, st': seq<NodeState>) {
    |st| == |st'| && forall v :: 0 <= v < |st| ==>
      (st[v].Executed? ==> st'[v].Executed?) && (st[v].Skipped? ==> st'[v].Skipped?)
  }

  lemma KeptJoins(g: Graph, st: seq<NodeState>, st': seq<NodeState>, v: nat)
    requires WellFormed(g) && |st| == g.N() && Keeps(st, st') && v < g.N()
    ensures JoinMet(g, st, v) ==> JoinMet(g, st', v)
    ensures SafelySkipped(g, st, v) ==> SafelySkipped(g, st', v)
    ensures HasExecutedPred(g, st, v) ==> HasExecutedPred(g, st', v)
  {
    if SafelySkipped(g, st, v) {
      forall j | j in g.succs[v]
        ensures if g.IsAny(j) then HasExecutedPred(g, st', j) else st'[j].Skipped?
      {
        if g.IsAny(j) {
          var u :| u in g.preds[j] && st[u].Executed?;
          assert st'[u].Executed?;
        }
      }
    }
  }

  /** One transition of node v, by what it has to bring along for the joins. */
  lemma TransitionJoined(g: Graph, s: St, v: nat, to: NodeState, trigger: Trigger, payload: string)
    requires WellFormed(g) && Shape(g, s) && Joined(g, s) && v < g.N()
    requires !s.state[v].Executed? && !s.state[v].Skipped?
    requires to.Ready? ==> JoinMet(g, s.state, v)
    requires Begun(to) && !to.Ready? ==> EverReady(s.trace, v)
    requires to.Skipped? ==> SafelySkipped(g, s.state, v)
    ensures Joined(g, Transition(g, s, v, to, trigger, payload))
  {
    var t := Transition(g, s, v, to, trigger, payload);
    EverReadyAppend(s.trace, Move(v, s.state[v], to, trigger, payload));
    forall x | 0 <= x < g.N()
      ensures t.state[x].Skipped? ==> SafelySkipped(g, t.state, x)
      ensures EverReady(t.trace, x) ==> JoinMet(g, t.state, x)
      ensures Begun(t.state[x]) ==> EverReady(t.trace, x)
    {
      KeptJoins(g, s.state, t.state, x);
    }
  }

  lemma EverReadyAppend(t: seq<Move>, m: Move)
    ensures forall v: nat :: EverReady(t + [m], v) <==> EverReady(t, v) || (m.node == v && m.to.Ready?)
  {
    forall v: nat
      ensures EverReady(t + [m], v) <==> EverReady(t, v) || (m.node == v && m.to.Ready?)
    {
      if EverReady(t, v) {
        var k :| 0 <= k < |t| && t[k].node == v && t[k].to.Ready?;
        assert (t + [m])[k] == t[k];
      }
      if m.node == v && m.to.Ready? { assert (t + [m])[|t|] == m; }
    }
  }

  /** The all_of test also accepts skipped predecessors, but a pending node has none. */
  lemma PromoteJoin(g: Graph, s: St, v: nat)
    requires WellFormed(g) && Shape(g, s) && Joined(g, s) && v < g.N()
    requires s.state[v].Pending? && DepsSatisfied(g, s.state, v)
    ensures JoinMet(g, s.state, v)
  {
    if !g.IsAny(v) {
      forall u | u in g.preds[v]
        ensures s.state[u].Executed?
      {
        EdgeBothWays(g, u, v);
        assert s.state[u].IsTerminalSuccess();
        assert s.state[u].Skipped? ==> SafelySkipped(g, s.state, u);
      }
    }
  }

  /** A loser that is not still needed may be skipped: every joiner it feeds does without it. */
  lemma SkipIsSafe(g: Graph, s: St, v: nat, j: nat)
    requires WellFormed(g) && Shape(g, s) && Joined(g, s) && v < g.N() && j < g.N() && v in g.preds[j]
    requires forall x :: 0 <= x < g.N() ==> Settled(s.state[x])
    requires !s.state[v].IsTerminal() && !StillNeeded(g, s.state, v)
    ensures SafelySkipped(g, s.state, v)
  {
    EdgeBothWays(g, v, j);
    forall x | x in g.succs[v]
      ensures if g.IsAny(x) then HasExecutedPred(g, s.state, x) else s.state[x].Skipped?
    {
      EdgeBothWays(g, v, x);
      if !g.IsAny(x) {
        assert s.state[x].IsTerminal();
        assert Begun(s.state[x]) ==> JoinMet(g, s.state, x);
      }
    }
  }

  lemma StepJoined(c: Config, s: St, a: Step)
    requires Checked(c) && Accounted(c, s) && Joined(c.g, s) && Enabled(c, s, a)
    ensures Joined(c.g, Do(c, s, a))
  {
    match a
    case Promote(v) =>
      PromoteJoin(c.g, s, v);
      TransitionJoined(c.g, s, v, Ready, DepsMet, "");
    case Launch(v) =>
      TransitionJoined(c.g, s, v, Running, Dispatch, "");
      SameJoined(c.g, Transition(c.g, s, v, Running, Dispatch, ""), LaunchOne(c.g, s, v));
    case SkipLoser(v, j, w) =>
      SkipIsSafe(c.g, s, v, j);
      TransitionJoined(c.g, s, v, Skipped, Skip, "");
    case Round =>
      SameJoined(c.g, s, Tick(s));
  }

  lemma SameJoined(g: Graph, s: St, t: St)
    requires WellFormed(g) && Shape(g, s) && Joined(g, s) && Shape(g, t)
    requires s.state == t.state && s.trace == t.trace
    ensures Joined(g, t)
  {
  }

  lemma AbsorbJoined(c: Config, s: St, v: nat, r: Result)
    requires Checked(c) && Shape(c.g, s) && Joined(c.g, s) && v < c.g.N() && s.state[v].Running?
    ensures Joined(c.g, Absorb(c, s, v, r))
  {
    hide Joined, Decide;
    var s0 := Receive(s, v);
    SameJoined(c.g, s, s0);
    RunningIsEverReady(c.g, s0, v);
    if r.err == None {
      TransitionJoined(c.g, s0, v, Executed, Success, "");
      SameJoined(c.g, Transition(c.g, s0, v, Executed, Success, ""), Absorb(c, s, v, r));
    } else {
      var s1 := Transition(c.g, s0, v, FailedRetryable, FailTrigger(r), r.err.value);
      TransitionJoined(c.g, s0, v, FailedRetryable, FailTrigger(r), r.err.value);
      EverReadyAppend(s0.trace, Move(v, Running, FailedRetryable, FailTrigger(r), r.err.value));
      CarryOutJoined(c, s1, v, Decide(c.policy, s.attempt[v], r));
    }
  }

  lemma RunningIsEverReady(g: Graph, s: St, v: nat)
    requires WellFormed(g) && Shape(g, s) && Joined(g, s) && v < g.N() && s.state[v].Running?
    ensures EverReady(s.trace, v) && JoinMet(g, s.state, v)
  {
  }

  lemma CarryOutJoined(c: Config, s: St, v: nat, d: Decision)
    requires WellFormed(c.g) && Shape(c.g, s) && Joined(c.g, s) && v < c.g.N()
    requires s.state[v].FailedRetryable? && EverReady(s.trace, v)
    ensures Joined(c.g, CarryOut(c, s, v, d))
  {
    assert JoinMet(c.g, s.state, v);
    var s' := s.(attempt := s.attempt[v := Spend(s.attempt[v], d)]);
    SameJoined(c.g, s, s');
    match d.action
    case Retry =>
      TransitionJoined(c.g, s', v, Ready, if d.level == LocalPatch then Traces.Patch else Traces.Retry, d.reason);
    case Replan => TransitionJoined(c.g, s', v, Failed, ReplanRequested, d.reason);
    case Fail => TransitionJoined(c.g, s', v, Failed, GiveUp, d.reason);
  }

  // ---- attempts --------------------------------------------------------------------------------------

  function Spent(a: Attempt): nat {
    a.retries + a.patches
  }

  /** The last failure on a node's part of the trace, when it is followed by one more move. */
  ghost predicate LastFailureTransient(p: seq<Move>) {
    |p| >= 2 && p[|p| - 2].to.FailedRetryable? && p[|p| - 2].trigger == FailRetryable
  }

  /** The counters of one node: dispatches and trace length as functions of the attempts spent. */
  ghost predicate CountedNode(p: Policy, st: NodeState, a: Attempt, launches: nat, moves: seq<Move>) {
    && a.retries <= p.RetryCap() && a.patches <= p.PatchCap()
    && (a.replanned ==> st.Failed?)
    && match st
       case Pending => Spent(a) == 0 && launches == 0 && moves == []
       case Ready => launches == Spent(a) && |moves| == 1 + 3 * Spent(a)
       case Running => launches == Spent(a) + 1 && |moves| == 2 + 3 * Spent(a)
       case Executed => launches == Spent(a) + 1 && |moves| == 3 + 3 * Spent(a)
       case Cancelled => launches == Spent(a) + 1 && |moves| == 3 + 3 * Spent(a)
       case Failed =>
         && launches == Spent(a) + 1 && |moves| == 4 + 3 * Spent(a)
         && a.patches == p.PatchCap()
         && (LastFailureTransient(moves) ==> a.retries == p.RetryCap())
       case Skipped => Spent(a) <= launches <= Spent(a) + 1 && 1 <= |moves| <= 3 + 3 * Spent(a)
       case FailedRetryable =>
         launches == Spent(a) + 1 && |moves| == 3 + 3 * Spent(a) && moves[|moves| - 1].to.FailedRetryable?
       case _ => false
  }

  ghost predicate Counted(c: Config, s: St)
    requires Shape(c.g, s)
  {
    forall v :: 0 <= v < c.g.N() ==>
      CountedNode(c.policy, s.state[v], s.attempt[v], Launches(s.trace, v), Proj(s.trace, v))
  }

  /** Only the moved node's counters change, and they change by this move. */
  lemma CountMove(t: seq<Move>, m: Move, v: nat)
    ensures Proj(t + [m], v) == if m.node == v then Proj(t, v) + [m] else Proj(t, v)
    ensures Launches(t + [m], v) == Launches(t, v) + if m.node == v && m.to.Running? then 1 else 0
  {
    AppendMove(t, m, v);
    if m.to.Running? { AppendMove(Dispatches(t), m, v); }
  }

  lemma TransitionCounted(c: Config, s: St, v: nat, to: NodeState, trigger: Trigger, payload: string, t: St)
    requires WellFormed(c.g) && Shape(c.g, s) && Counted(c, s) && v < c.g.N() && Shape(c.g, t)
    requires var r := Transition(c.g, s, v, to, trigger, payload);
      t.state == r.state && t.trace == r.trace
    requires forall x :: 0 <= x < c.g.N() && x != v ==> t.attempt[x] == s.attempt[x]
    requires CountedNode(c.policy, to, t.attempt[v],
                         Launches(s.trace, v) + if to.Running? then 1 else 0,
                         Proj(s.trace, v) + [Move(v, s.state[v], to, trigger, payload)])
    ensures Counted(c, t)
  {
    hide CountedNode, Launches, Proj, WellFormed;
    forall x | 0 <= x < c.g.N()
      ensures CountedNode(c.policy, t.state[x], t.attempt[x], Launches(t.trace, x), Proj(t.trace, x))
    {
      CountMove(s.trace, Move(v, s.state[v], to, trigger, payload), x);
    }
  }

  lemma StepCounted(c: Config, s: St, a: Step)
    requires Checked(c) && Accounted(c, s) && Counted(c, s) && Enabled(c, s, a)
    ensures Counted(c, Do(c, s, a))
  {
    if !a.Round? {
      assert CountedNode(c.policy, s.state[a.v], s.attempt[a.v], Launches(s.trace, a.v), Proj(s.trace, a.v));
      assert Settled(s.state[a.v]);
      CountQuiet(c.policy, s.state[a.v], s.attempt[a.v], Launches(s.trace, a.v), Proj(s.trace, a.v));
    }
    hide CountedNode, Launches, Proj, WellFormed, Accounted, Counted;
    match a
    case Promote(v) => TransitionCounted(c, s, v, Ready, DepsMet, "", Do(c, s, a));
    case Launch(v) => TransitionCounted(c, s, v, Running, Dispatch, "", Do(c, s, a));
    case SkipLoser(v, j, w) => TransitionCounted(c, s, v, Skipped, Skip, "", Do(c, s, a));
    case Round => SameCounted(c, s, Tick(s));
  }

  /** A node's counters across a promotion, a dispatch and a skip. */
  lemma CountQuiet(p: Policy, st: NodeState, a: Attempt, launches: nat, moves: seq<Move>)
    requires CountedNode(p, st, a, launches, moves) && Settled(st)
    ensures st.Pending? ==> forall m :: CountedNode(p, Ready, a, launches, moves + [m])
    ensures st.Ready? ==> forall m :: CountedNode(p, Running, a, launches + 1, moves + [m])
    ensures !st.IsTerminal() ==> forall m :: CountedNode(p, Skipped, a, launches, moves + [m])
  {
  }

  lemma SameCounted(c: Config, s: St, t: St)
    requires Shape(c.g, s) && Shape(c.g, t) && Counted(c, s)
    requires t.state == s.state && t.attempt == s.attempt && t.trace == s.trace
    ensures Counted(c, t)
  {
  }

  lemma AbsorbCounted(c: Config, s: St, v: nat, r: Result)
    requires Checked(c) && Shape(c.g, s) && Counted(c, s) && v < c.g.N() && s.state[v].Running?
    ensures Counted(c, Absorb(c, s, v, r))
  {
    var s0 := Receive(s, v);
    if r.err == None {
      TransitionCounted(c, s0, v, Executed, Success, "", Absorb(c, s, v, r));
    } else {
      var s1 := Transition(c.g, s0, v, FailedRetryable, FailTrigger(r), r.err.value);
      TransitionCounted(c, s0, v, FailedRetryable, FailTrigger(r), r.err.value, s1);
      CountMove(s0.trace, Move(v, Running, FailedRetryable, FailTrigger(r), r.err.value), v);
      CarryOutCounted(c, s1, v, r);
    }
  }

  lemma CountAfterRetry(p: Policy, a: Attempt, launches: nat, moves: seq<Move>, r: Result, m: Move)
    requires CountedNode(p, FailedRetryable, a, launches, moves)
    requires Decide(p, a, r).action == Recovery.Retry
    ensures CountedNode(p, Ready, Spend(a, Decide(p, a, r)), launches, moves + [m])
  {
  }

  lemma CountAfterReplan(p: Policy, a: Attempt, launches: nat, moves: seq<Move>, r: Result, m: Move)
    requires CountedNode(p, FailedRetryable, a, launches, moves)
    requires moves[|moves| - 1].trigger == FailTrigger(r)
    requires Decide(p, a, r).action != Recovery.Retry
    ensures Decide(p, a, r).action == Recovery.Replan
    ensures CountedNode(p, Failed, Spend(a, Decide(p, a, r)), launches, moves + [m])
  {
    assert (moves + [m])[|moves| - 1] == moves[|moves| - 1];
  }

  lemma CarryOutCounted(c: Config, s: St, v: nat, r: Result)
    requires WellFormed(c.g) && Shape(c.g, s) && Counted(c, s) && v < c.g.N()
    requires s.state[v].FailedRetryable?
    requires var p := Proj(s.trace, v); |p| > 0 && p[|p| - 1].trigger == FailTrigger(r)
    ensures Counted(c, CarryOut(c, s, v, Decide(c.policy, s.attempt[v], r)))
  {
    var d := Decide(c.policy, s.attempt[v], r);
    var p := Proj(s.trace, v);
    var t := CarryOut(c, s, v, d);
    assert CountedNode(c.policy, FailedRetryable, s.attempt[v], Launches(s.trace, v), p);
    hide CountedNode, Launches, Proj, WellFormed, Decide, Spend;
    if d.action == Recovery.Retry {
      var trigger := if d.level == LocalPatch then Traces.Patch else Traces.Retry;
      CountAfterRetry(c.policy, s.attempt[v], Launches(s.trace, v), p, r,
                      Move(v, FailedRetryable, Ready, trigger, d.reason));
      TransitionCounted(c, s, v, Ready, trigger, d.reason, t);
    } else {
      CountAfterReplan(c.policy, s.attempt[v], Launches(s.trace, v), p, r,
                       Move(v, FailedRetryable, Failed, ReplanRequested, d.reason));
      TransitionCounted(c, s, v, Failed, ReplanRequested, d.reason, t);
    }
  }

  // ---- the trace -------------------------------------------------------------------------------------

  ghost predicate Traced(g: Graph, s: St)
    requires Shape(g, s)
  {
    && Chained(s.trace, g.N())
    && (forall v :: 0 <= v < g.N() ==> StateAfter(s.trace, v) == s.state[v])
  }

  lemma TransitionTraced(g: Graph, s: St, v: nat, to: NodeState, trigger: Trigger, payload: string, t: St)
    requires Shape(g, s) && Traced(g, s) && v < g.N() && Shape(g, t)
    requires LegalMove(Move(v, s.state[v], to, trigger, payload))
    requires var r := Transition(g, s, v, to, trigger, payload);
      t.state == r.state && t.trace == r.trace
    ensures Traced(g, t)
  {
    hide LegalMove;
    var m := Move(v, s.state[v], to, trigger, payload);
    forall x | 0 <= x < g.N()
      ensures StateAfter(t.trace, x) == t.state[x]
    {
      AppendMove(s.trace, m, x);
    }
    forall k | 0 <= k < |t.trace|
      ensures t.trace[k].node < g.N() && LegalMove(t.trace[k])
      ensures t.trace[k].from == StateAfter(t.trace[..k], t.trace[k].node)
    {
      assert t.trace[..k] == s.trace[..k];
      if k == |s.trace| { assert s.trace[..k] == s.trace; }
    }
  }

  lemma StepTraced(c: Config, s: St, a: Step)
    requires Checked(c) && Accounted(c, s) && Traced(c.g, s) && Enabled(c, s, a)
    ensures Traced(c.g, Do(c, s, a))
  {
    match a
    case Promote(v) => TransitionTraced(c.g, s, v, Ready, DepsMet, "", Do(c, s, a));
    case Launch(v) => TransitionTraced(c.g, s, v, Running, Dispatch, "", Do(c, s, a));
    case SkipLoser(v, j, w) => TransitionTraced(c.g, s, v, Skipped, Skip, "", Do(c, s, a));
    case Round =>
  }

  lemma AbsorbTraced(c: Config, s: St, v: nat, r: Result)
    requires Checked(c) && Shape(c.g, s) && Traced(c.g, s) && v < c.g.N() && s.state[v].Running?
    requires !s.attempt[v].replanned
    ensures Traced(c.g, Absorb(c, s, v, r))
  {
    var s0 := Receive(s, v);
    if r.err == None {
      TransitionTraced(c.g, s0, v, Executed, Success, "", Absorb(c, s, v, r));
    } else {
      var s1 := Transition(c.g, s0, v, FailedRetryable, FailTrigger(r), r.err.value);
      TransitionTraced(c.g, s0, v, FailedRetryable, FailTrigger(r), r.err.value, s1);
      CarryOutTraced(c, s1, v, r);
    }
  }

  lemma CarryOutTraced(c: Config, s: St, v: nat, r: Result)
    requires Shape(c.g, s) && Traced(c.g, s) && v < c.g.N() && s.state[v].FailedRetryable?
    requires !s.attempt[v].replanned
    ensures Traced(c.g, CarryOut(c, s, v, Decide(c.policy, s.attempt[v], r)))
  {
    hide Traced;
    var d := Decide(c.policy, s.attempt[v], r);
    var t := CarryOut(c, s, v, d);
    if d.action == Recovery.Retry {
      TransitionTraced(c.g, s, v, Ready, if d.level == LocalPatch then Traces.Patch else Traces.Retry, d.reason, t);
    } else {
      TransitionTraced(c.g, s, v, Failed, ReplanRequested, d.reason, t);
    }
  }

  // ---- what workers are given ---------------------------------------------------------------------------

  /** A running node was started with outputs of executed predecessors, unchanged since: with all
      of them for an all_of node, with at least one for an any_of node. */
  ghost predicate SuppliedNode(g: Graph, s: St, v: nat)
    requires WellFormed(g) && Shape(g, s) && v < g.N()
  {
    var inputs := s.job[v].inputs;
    && s.job[v].tries == Spent(s.attempt[v])
    && (forall u :: u in inputs ==> u in g.preds[v] && s.state[u].Executed? && inputs[u] == s.output[u])
    && (if g.IsAny(v) then g.preds[v] == [] || exists u :: u in inputs
        else forall u :: u in g.preds[v] ==> u in inputs)
  }

  ghost predicate Supplied(g: Graph, s: St)
    requires WellFormed(g) && Shape(g, s)
  {
    forall v :: 0 <= v < g.N() && s.state[v].Running? ==> SuppliedNode(g, s, v)
  }

  lemma SuppliedKept(g: Graph, s: St, t: St, v: nat)
    requires WellFormed(g) && Shape(g, s) && Shape(g, t) && v < g.N() && SuppliedNode(g, s, v)
    requires s.job[v] == t.job[v] && s.attempt[v] == t.attempt[v]
    requires forall u :: 0 <= u < g.N() && s.state[u].Executed? ==> t.state[u].Executed? && t.output[u] == s.output[u]
    ensures SuppliedNode(g, t, v)
  {
    forall u | u in t.job[v].inputs
      ensures u in g.preds[v] && t.state[u].Executed? && t.job[v].inputs[u] == t.output[u]
    {
      assert u in s.job[v].inputs && u in g.preds[v];
    }
  }

  lemma LaunchSupplies(g: Graph, s: St, v: nat)
    requires WellFormed(g) && Shape(g, s) && v < g.N() && s.state[v].Ready? && JoinMet(g, s.state, v)
    ensures SuppliedNode(g, LaunchOne(g, s, v), v)
  {
    var inputs := InputsFor(g, s, v);
    if g.IsAny(v) && g.preds[v] != [] {
      var u :| u in g.preds[v] && s.state[u].Executed?;
      assert u in inputs;
    }
  }

  lemma StepSupplied(c: Config, s: St, a: Step)
    requires Checked(c) && Accounted(c, s) && Joined(c.g, s) && Supplied(c.g, s) && Enabled(c, s, a)
    ensures Supplied(c.g, Do(c, s, a))
  {
    hide JoinMet, SuppliedNode, EverReady;
    var t := Do(c, s, a);
    if a.Launch? {
      LaunchSupplies(c.g, s, a.v);
    }
    forall v | 0 <= v < c.g.N() && t.state[v].Running?
      ensures SuppliedNode(c.g, t, v)
    {
      if !(a.Launch? && a.v == v) { SuppliedKept(c.g, s, t, v); }
    }
  }

  lemma AbsorbSupplied(c: Config, s: St, v: nat, r: Result)
    requires Checked(c) && Shape(c.g, s) && Supplied(c.g, s) && v < c.g.N() && s.state[v].Running?
    ensures Supplied(c.g, Absorb(c, s, v, r))
  {
    hide SuppliedNode, Decide;
    AbsorbEffect(c, s, v, r);
    var t := Absorb(c, s, v, r);
    assert forall x :: 0 <= x < c.g.N() && x != v ==> t.attempt[x] == s.attempt[x];
    hide Absorb;
    forall x | 0 <= x < c.g.N() && t.state[x].Running?
      ensures SuppliedNode(c.g, t, x)
    {
      SuppliedKept(c.g, s, t, x);
    }
  }

  // ---- all together -------------------------------------------------------------------------------------

  ghost predicate Inv(c: Config, s: St)
    requires WellFormed(c.g)
  {
    Shape(c.g, s) && Accounted(c, s) && Isolated(c, s) && Joined(c.g, s) && Counted(c, s) && Traced(c.g, s)
    && Supplied(c.g, s)
  }

  lemma StepInv(c: Config, s: St, a: Step)
    requires Checked(c) && Inv(c, s) && Enabled(c, s, a)
    ensures Inv(c, Do(c, s, a))
  {
    hide Accounted, Isolated, Joined, Counted, Traced, Supplied, Enabled, Do;
    StepAccounted(c, s, a);
    StepIsolated(c, s, a);
    StepJoined(c, s, a);
    StepCounted(c, s, a);
    StepTraced(c, s, a);
    StepSupplied(c, s, a);
  }

  lemma {:induction false} FollowsInv(c: Config, s: St, acts: seq<Step>, t: St)
    requires Checked(c) && Inv(c, s) && Follows(c, s, acts, t)
    ensures Inv(c, t)
    decreases |acts|
  {
    hide Accounted, Isolated, Joined, Counted, Traced, Supplied, Enabled;
    if |acts| > 0 {
      StepInv(c, s, acts[0]);
      FollowsInv(c, Do(c, s, acts[0]), acts[1..], t);
    }
  }

  lemma BlankInv(c: Config)
    requires Checked(c)
    ensures Inv(c, Blank(c.g))
  {
    var b := Blank(c.g);
    assert Accounted(c, b) && Isolated(c, b) && Traced(c.g, b);
    BlankCounted(c);
    BlankJoined(c);
    hide Accounted, Isolated, Joined, Counted, Traced, Supplied;
  }

  lemma BlankCounted(c: Config)
    ensures Counted(c, Blank(c.g))
  {
  }

  lemma BlankJoined(c: Config)
    requires WellFormed(c.g)
    ensures Joined(c.g, Blank(c.g))
  {
  }

  /** An event comes from a running node, or from one that was skipped while its worker ran. */
  lemma EventSource(c: Config, s: St, v: nat)
    requires WellFormed(c.g) && Inv(c, s) && v in s.workers
    ensures v < c.g.N() && (s.state[v].Running? || s.state[v].Skipped?)
    ensures s.workers - multiset{v} == s.workers[v := 0]
  {
    assert s.workers[v] == 1;
  }

  lemma AbsorbInv(c: Config, s: St, v: nat, r: Result)
    requires Checked(c) && Inv(c, s) && v in s.workers && v < c.g.N() && s.state[v].Running?
    ensures Inv(c, Absorb(c, s, v, r))
  {
    assert !s.attempt[v].replanned;
    hide Accounted, Isolated, Joined, Counted, Traced, Supplied, Absorb;
    AbsorbAccounted(c, s, v, r);
    AbsorbIsolated(c, s, v, r);
    AbsorbJoined(c, s, v, r);
    AbsorbCounted(c, s, v, r);
    AbsorbTraced(c, s, v, r);
    AbsorbSupplied(c, s, v, r);
  }

  /** Dropping the late event of a skipped node. */
  lemma ReceiveInv(c: Config, s: St, v: nat)
    requires Checked(c) && Inv(c, s) && v in s.workers && v < c.g.N() && s.state[v].Skipped?
    ensures Inv(c, Receive(s, v))
  {
    var t := Receive(s, v);
    OthersInFlight(s.workers, v);
    assert Isolated(c, t);
    SameJoined(c.g, s, t);
    assert Supplied(c.g, t) by {
      forall x | 0 <= x < c.g.N() && t.state[x].Running?
        ensures SuppliedNode(c.g, t, x)
      {
        SuppliedKept(c.g, s, t, x);
      }
    }
  }

  lemma StartInv(c: Config)
    requires Checked(c)
    ensures Inv(c, Start(c))
  {
    BlankInv(c);
    var acts := StartSteps(c);
    FollowsInv(c, Blank(c.g), acts, Start(c));
  }

  lemma HandleInv(c: Config, s: St, e: Event)
    requires Checked(c) && Inv(c, s) && e.node in s.workers
    ensures e.node < c.g.N() && Inv(c, Handle(c, s, e))
  {
    EventSource(c, s, e.node);
    hide Inv, Absorb, Receive, Handle;
    var acts := HandleSteps(c, s, e);
    if s.state[e.node].IsTerminal() {
      ReceiveInv(c, s, e.node);
      FollowsInv(c, Receive(s, e.node), acts, Handle(c, s, e));
    } else {
      AbsorbInv(c, s, e.node, e.result);
      FollowsInv(c, Absorb(c, s, e.node, e.result), acts, Handle(c, s, e));
    }
  }

  /** The effect of a cancelled worker's event on what the accounting looks at. */
  lemma CancelEffect(g: Graph, s: St, v: nat)
    requires Shape(g, s) && v < g.N() && s.state[v].Running?
    ensures var t := DrainOne(g, s, v);
      t.inFlight == s.inFlight - 1 && t.workers == s.workers - multiset{v} && t.state == s.state[v := Cancelled]
  {
  }

  lemma CancelAccounted(c: Config, s: St, v: nat)
    requires Checked(c) && Accounted(c, s) && v in s.workers && v < c.g.N() && s.state[v].Running?
    ensures Accounted(c, DrainOne(c.g, s, v))
  {
    CancelEffect(c.g, s, v);
    hide Checked, DrainOne;
  }

  lemma CancelIsolated(c: Config, s: St, v: nat)
    requires Checked(c) && Accounted(c, s) && Isolated(c, s)
    requires v in s.workers && v < c.g.N() && s.state[v].Running?
    ensures Isolated(c, DrainOne(c.g, s, v))
  {
    CancelEffect(c.g, s, v);
    OthersInFlight(s.workers, v);
    assert Shape(c.g, s) && s.workers[v] > 0;
    hide Checked, DrainOne, Accounted;
  }

  lemma CancelJoined(c: Config, s: St, v: nat)
    requires Checked(c) && Shape(c.g, s) && Joined(c.g, s) && v < c.g.N() && s.state[v].Running?
    ensures Joined(c.g, DrainOne(c.g, s, v))
  {
    RunningIsEverReady(c.g, s, v);
    hide Joined;
    SameJoined(c.g, s, Receive(s, v));
    TransitionJoined(c.g, Receive(s, v), v, Cancelled, Cancel, "");
  }

  lemma CancelCounted(c: Config, s: St, v: nat)
    requires Checked(c) && Shape(c.g, s) && Counted(c, s) && Traced(c.g, s) && v < c.g.N() && s.state[v].Running?
    ensures Counted(c, DrainOne(c.g, s, v)) && Traced(c.g, DrainOne(c.g, s, v))
  {
    TransitionCounted(c, Receive(s, v), v, Cancelled, Cancel, "", DrainOne(c.g, s, v));
    TransitionTraced(c.g, Receive(s, v), v, Cancelled, Cancel, "", DrainOne(c.g, s, v));
  }

  /** One event received after cancellation. */
  lemma DrainOneInv(c: Config, s: St, v: nat)
    requires Checked(c) && Inv(c, s) && v in s.workers && v < c.g.N()
    ensures Inv(c, DrainOne(c.g, s, v))
  {
    EventSource(c, s, v);
    hide Accounted, Isolated, Joined, Counted, Traced, Supplied;
    if s.state[v].Running? {
      CancelAccounted(c, s, v);
      CancelIsolated(c, s, v);
      CancelJoined(c, s, v);
      CancelCounted(c, s, v);
      CancelSupplied(c, s, v);
    } else {
      ReceiveInv(c, s, v);
    }
  }

  lemma CancelSupplied(c: Config, s: St, v: nat)
    requires Checked(c) && Shape(c.g, s) && Supplied(c.g, s) && v < c.g.N() && s.state[v].Running?
    ensures Supplied(c.g, DrainOne(c.g, s, v))
  {
    hide SuppliedNode;
    var t := DrainOne(c.g, s, v);
    forall x | 0 <= x < c.g.N() && t.state[x].Running?
      ensures SuppliedNode(c.g, t, x)
    {
      SuppliedKept(c.g, s, t, x);
    }
  }
}
