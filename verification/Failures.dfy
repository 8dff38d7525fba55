/** Runs that only fail from some point on. Then nothing is executed or skipped any more, so every
    node that was started comes to its end on the recovery ladder. */
module Failures {
  import opened Plans
  import opened Graphs
  import opened Lists
  import opened Recovery
  import opened Machine
  import opened Steps
  import opened Invariants
  import opened LoopHead
  import opened Theorems

  const TRANSIENT := Result("", true, Some("transient"))

  // ---- what one pass changes --------------------------------------------------------------------

  lemma {:induction false} FollowsAttempts(c: Config, s: St, acts: seq<Step>, t: St)
    requires WellFormed(c.g) && Shape(c.g, s) && Follows(c, s, acts, t)
    ensures t.attempt == s.attempt
    decreases |acts|
  {
    if |acts| > 0 {
      FollowsAttempts(c, Do(c, s, acts[0]), acts[1..], t);
    }
  }

  /** Attempts are spent by the event alone. */
  lemma HandleAttempts(c: Config, s: St, e: Event)
    requires WellFormed(c.g) && Shape(c.g, s) && e.node < c.g.N()
    ensures Handle(c, s, e).attempt ==
      if s.state[e.node].IsTerminal() then s.attempt else Absorb(c, s, e.node, e.result).attempt
  {
    var acts := HandleSteps(c, s, e);
    hide Handle, Absorb, Follows;
    if s.state[e.node].IsTerminal() {
      FollowsAttempts(c, Receive(s, e.node), acts, Handle(c, s, e));
    } else {
      FollowsAttempts(c, Absorb(c, s, e.node, e.result), acts, Handle(c, s, e));
    }
  }

  lemma StartAttempts(c: Config)
    requires WellFormed(c.g)
    ensures Start(c).attempt == Blank(c.g).attempt
  {
    var acts := StartSteps(c);
    hide Start, Follows;
    FollowsAttempts(c, Blank(c.g), acts, Start(c));
  }

  lemma AbsorbAttempts(c: Config, s: St, v: nat, r: Result, x: nat)
    requires Shape(c.g, s) && v < c.g.N() && x < c.g.N() && x != v
    ensures Absorb(c, s, v, r).attempt[x] == s.attempt[x]
  {
  }

  /** Quiet steps bring no node to an end but by skipping it. */
  predicate SameEnds(st: seq<NodeState>, st': seq<NodeState>) {
    |st| == |st'| && forall v :: 0 <= v < |st| ==>
      (st[v].Executed? <==> st'[v].Executed?) && (st[v].Failed? <==> st'[v].Failed?)
  }

  lemma {:induction false} FollowsEnds(c: Config, s: St, acts: seq<Step>, t: St)
    requires WellFormed(c.g) && Shape(c.g, s) && Follows(c, s, acts, t)
    ensures SameEnds(s.state, t.state)
    decreases |acts|
  {
    if |acts| > 0 {
      FollowsEnds(c, Do(c, s, acts[0]), acts[1..], t);
    }
  }

  /** Nor does an event, but for its own node. */
  lemma HandleEnds(c: Config, s: St, e: Event, v: nat)
    requires Checked(c) && AtHead(c, s) && e.node in s.workers && v < c.g.N()
    requires e.node == v ==> !s.state[v].Running?
    ensures var t := Handle(c, s, e);
      && (t.state[v].Executed? <==> s.state[v].Executed?) && (t.state[v].Failed? <==> s.state[v].Failed?)
      && t.attempt[v] == s.attempt[v]
  {
    EventSource(c, s, e.node);
    HandleAttempts(c, s, e);
    var acts := HandleSteps(c, s, e);
    hide AtHead, Inv, Handle, Follows, Absorb;
    if s.state[e.node].IsTerminal() {
      FollowsEnds(c, Receive(s, e.node), acts, Handle(c, s, e));
    } else {
      AbsorbEffect(c, s, e.node, e.result);
      AbsorbAttempts(c, s, e.node, e.result, v);
      FollowsEnds(c, Absorb(c, s, e.node, e.result), acts, Handle(c, s, e));
    }
  }

  /** Some run has v running. */
  ghost predicate Startable(c: Config, v: nat)
    requires WellFormed(c.g)
  {
    exists evs :: RunsAfter(c, evs, v)
  }

  ghost predicate RunsAfter(c: Config, evs: seq<Event>, v: nat)
    requires WellFormed(c.g)
  {
    Feasible(c, evs) && v < c.g.N() && After(c, evs).state[v].Running?
  }

  lemma StartRuns(c: Config, v: nat)
    requires Checked(c) && v < c.g.N() && Start(c).state[v].Running?
    ensures RunsAfter(c, [], v) && After(c, []).attempt[v] == FRESH
  {
    NoEvents(c);
    hide Start, AtHead;
    StartFresh(c, v);
  }

  /** A node that has been executed, has failed or has spent an attempt was running before. */
  lemma {:induction false} WasRunning(c: Config, evs: seq<Event>, v: nat)
    requires Checked(c) && Feasible(c, evs) && v < c.g.N()
    requires var s := After(c, evs); s.state[v].Executed? || s.state[v].Failed? || s.attempt[v] != FRESH
    ensures Startable(c, v)
    decreases |evs|
  {
    hide After, Handle, AtHead, Start, Poll, Startable;
    if |evs| == 0 {
      NoEvents(c);
      assert evs == [];
      StartFresh(c, v);
    } else {
      var init, e := evs[..|evs| - 1], evs[|evs| - 1];
      SplitLast(evs);
      RunExtend(c, init, e);
      RunAtHead(c, init);
      if After(c, init).state[v].Running? {
        RunningStarts(c, init, v);
      } else {
        HandleEnds(c, After(c, init), e, v);
        WasRunning(c, init, v);
      }
    }
  }

  lemma RunningStarts(c: Config, evs: seq<Event>, v: nat)
    requires WellFormed(c.g) && RunsAfter(c, evs, v)
    ensures Startable(c, v)
  {
  }

  lemma StartFresh(c: Config, v: nat)
    requires Checked(c) && v < c.g.N()
    ensures var s := Start(c);
      !s.state[v].Executed? && !s.state[v].Failed? && !s.state[v].Skipped? && s.attempt[v] == FRESH
  {
    StartAttempts(c);
    StartAtHead(c);
    SeedShape(c.g, Blank(c.g), 0);
    hide Start, AtHead, SeedFrom;
  }

  // ---- only failures from now on ----------------------------------------------------------------

  /** From x to y a node was not executed, skipped or made pending, and if it failed it has spent all
      its retries. */
  predicate NoEndButFailure(x: NodeState, y: NodeState, retries: nat, cap: nat) {
    && (y.Executed? <==> x.Executed?) && (y.Skipped? <==> x.Skipped?) && (y.Pending? ==> x.Pending?)
    && (y.Failed? ==> x.Failed? || retries >= cap)
  }

  /** The state before dispatching, after a transient failure of u. */
  lemma FailureObserved(c: Config, s: St, u: nat, v: nat)
    requires WellFormed(c.g) && Shape(c.g, s) && u < c.g.N() && v < c.g.N() && !s.state[u].IsTerminal()
    ensures var a, o := Absorb(c, s, u, TRANSIENT), Observed(c, s, Event(u, TRANSIENT));
      a.state[v] == o.state[v] || (a.state[v].Pending? && o.state[v].Ready? && DepsSatisfied(c.g, a.state, v))
  {
    AbsorbEffect(c, s, u, TRANSIENT);
    var a := Absorb(c, s, u, TRANSIENT);
    assert !a.state[u].Executed?;
    hide Absorb, DepsSatisfied;
    PromoteEffect(c.g, a, 0, v);
  }

  lemma FailureSpends(c: Config, s: St, u: nat, v: nat)
    requires Shape(c.g, s) && u < c.g.N() && v < c.g.N() && s.state[u].Running?
    ensures var a := Absorb(c, s, u, TRANSIENT);
      NoEndButFailure(s.state[v], a.state[v], a.attempt[v].retries, c.policy.RetryCap())
  {
    AbsorbEffect(c, s, u, TRANSIENT);
  }

  /** A promotion and a dispatch in between do not matter. */
  lemma QuietAfter(x: NodeState, a: NodeState, o: NodeState, t: NodeState, retries: nat, cap: nat)
    requires NoEndButFailure(x, a, retries, cap)
    requires (o == a || (a.Pending? && o.Ready?)) && (t == o || (o.Ready? && t.Running?))
    ensures NoEndButFailure(x, t, retries, cap)
  {
  }

  lemma FailingNode(c: Config, s: St, u: nat, v: nat)
    requires Checked(c) && AtHead(c, s) && u in s.workers && u < c.g.N() && v < c.g.N()
    ensures var t := Handle(c, s, Event(u, TRANSIENT));
      NoEndButFailure(s.state[v], t.state[v], t.attempt[v].retries, c.policy.RetryCap())
  {
    var e := Event(u, TRANSIENT);
    EventSource(c, s, u);
    assert Shape(c.g, s) && WellFormed(c.g);
    assert s.state[u].IsTerminal() ==> Observed(c, s, e).state == s.state;
    UnchangedNode(s, v, c.policy.RetryCap());
    hide AtHead, Handle, Observed, Absorb, WellFormed, Checked, NoEndButFailure;
    HandleAtHead(c, s, e);
    HandleAttempts(c, s, e);
    var a := s.state[v];
    if !s.state[u].IsTerminal() {
      FailureSpends(c, s, u, v);
      FailureObserved(c, s, u, v);
      a := Absorb(c, s, u, TRANSIENT).state[v];
    }
    var t := Handle(c, s, e);
    QuietAfter(s.state[v], a, Observed(c, s, e).state[v], t.state[v], t.attempt[v].retries, c.policy.RetryCap());
  }

  /** One more failure, at any distance. */
  lemma FailingStep(c: Config, x: NodeState, s: St, e: Event, v: nat)
    requires Checked(c) && AtHead(c, s) && e.node in s.workers && e.node < c.g.N() && e.result == TRANSIENT
    requires v < c.g.N() && NoEndButFailure(x, s.state[v], s.attempt[v].retries, c.policy.RetryCap())
    ensures var t := Handle(c, s, e); NoEndButFailure(x, t.state[v], t.attempt[v].retries, c.policy.RetryCap())
  {
    FailingNode(c, s, e.node, v);
    if s.state[v].Failed? { HandleFrozen(c, s, e, v); }
    hide AtHead, Handle;
  }

  /** The events of `full` behind evs are transient failures. */
  ghost predicate FailsOn(evs: seq<Event>, full: seq<Event>) {
    evs <= full && forall i :: |evs| <= i < |full| ==> full[i].result == TRANSIENT
  }

  lemma {:induction false} FailingTail(c: Config, evs: seq<Event>, full: seq<Event>, v: nat)
    requires Checked(c) && Feasible(c, evs) && Feasible(c, full) && FailsOn(evs, full) && v < c.g.N()
    ensures var s, t := After(c, evs), After(c, full);
      NoEndButFailure(s.state[v], t.state[v], t.attempt[v].retries, c.policy.RetryCap())
    decreases |full|
  {
    hide After, Handle, AtHead, Poll, NoEndButFailure;
    if |full| == |evs| {
      assert full == evs;
      UnchangedNode(After(c, evs), v, c.policy.RetryCap());
    } else {
      var init, e := full[..|full| - 1], full[|full| - 1];
      SplitLast(full);
      RunExtend(c, init, e);
      RunAtHead(c, init);
      FailingTail(c, evs, init, v);
      FailingStep(c, After(c, evs).state[v], After(c, init), e, v);
    }
  }

  lemma UnchangedNode(s: St, v: nat, cap: nat)
    requires v < |s.state| == |s.attempt|
    ensures NoEndButFailure(s.state[v], s.state[v], s.attempt[v].retries, cap)
  {
  }

  /** Any run can go on like this until it returns. */
  lemma FailToTheEnd(c: Config, evs: seq<Event>) returns (full: seq<Event>)
    requires Checked(c) && Feasible(c, evs)
    ensures Returned(c, full) && FailsOn(evs, full)
  {
    full := RunCompletes(c, evs, (_, _) => TRANSIENT);
  }

  /** Then a node that was started has failed and has spent every retry the policy has. */
  lemma SpendsAll(c: Config, evs: seq<Event>, v: nat) returns (full: seq<Event>)
    requires Checked(c) && Feasible(c, evs) && v < c.g.N()
    requires After(c, evs).state[v].Ready? || After(c, evs).state[v].Running?
    ensures Returned(c, full) && evs <= full
    ensures var t := After(c, full); t.state[v].Failed? && t.attempt[v].retries >= c.policy.RetryCap()
  {
    full := FailToTheEnd(c, evs);
    FailingTail(c, evs, full, v);
    RunBalanced(c, full);
    assert InPlan(c.g, full);
    hide After, Poll, Checked, Feasible;
    if !After(c, full).state[v].IsTerminal() {
      StalledNode(c, full, v);
    }
  }

  /** Every run of a plan finishes every node exactly if no node has a predecessor: in a run where
      everything fails, nothing behind an entry node is ever started. */
  lemma AlwaysFinishesIff(c: Config)
    requires Checked(c) && Acyclic(c.g)
    ensures (forall evs :: Returned(c, evs) ==> AllTerminal(After(c, evs).state)) <==>
      forall v :: 0 <= v < c.g.N() ==> c.g.preds[v] == []
  {
    if v :| 0 <= v < c.g.N() && c.g.preds[v] != [] {
      NoEvents(c);
      var full := FailToTheEnd(c, []);
      NeverStarted(c, full, v);
    } else {
      forall evs | Returned(c, evs)
        ensures AllTerminal(After(c, evs).state)
      {
        AllTerminalIff(c, evs);
        NoEdges(c.g);
      }
    }
  }

  lemma NoEdges(g: Graph)
    requires WellFormed(g) && forall v :: 0 <= v < g.N() ==> g.preds[v] == []
    ensures forall u :: 0 <= u < g.N() ==> g.succs[u] == []
  {
    forall u | 0 <= u < g.N()
      ensures g.succs[u] == []
    {
      if g.succs[u] != [] {
        assert g.succs[u][0] in g.succs[u];
        EdgeBothWays(g, u, g.succs[u][0]);
      }
    }
  }

  lemma NeverStarted(c: Config, full: seq<Event>, v: nat)
    requires Checked(c) && Feasible(c, full) && FailsOn([], full) && v < c.g.N() && c.g.preds[v] != []
    ensures !After(c, full).state[v].IsTerminal()
  {
    NoEvents(c);
    RunAtHead(c, full);
    RunBalanced(c, full);
    forall u | 0 <= u < c.g.N()
      ensures !After(c, full).state[u].Executed? && !After(c, full).state[u].Skipped?
    {
      StartFresh(c, u);
      FailingTail(c, [], full, u);
    }
    hide After, Start, Feasible, Poll, Promoted, WorkConserving, Checked;
    UnmetJoin(c, After(c, full), v);
  }

  lemma UnmetJoin(c: Config, s: St, v: nat)
    requires WellFormed(c.g) && Inv(c, s) && v < c.g.N() && c.g.preds[v] != []
    requires forall u :: 0 <= u < c.g.N() ==> !s.state[u].Executed?
    ensures !Begun(s.state[v])
  {
    assert Joined(c.g, s) && Shape(c.g, s);
    hide Inv, Joined;
    assert c.g.preds[v][0] in c.g.preds[v];
    if Begun(s.state[v]) { BegunMet(c.g, s, v); }
  }
}
