/** What `Run` reports (engine/scheduler/scheduler.go:20-34, 483-504), stated on the run itself. */
module Outcomes {
  import opened Plans
  import opened Graphs
  import opened Machine
  import opened Invariants
  import opened LoopHead
  import Theorems

  /** The map has one entry per node, its state in st, and success means executed or skipped everywhere. */
  ghost predicate Tells(g: Graph, st: seq<NodeState>, o: Outcome)
    requires |st| == g.N()
  {
    && (forall v :: 0 <= v < g.N() ==> g.nodes[v].id in o.final && o.final[g.nodes[v].id] == st[v])
    && (forall id :: id in o.final ==> HasId(g.nodes, id))
    && (o.succeeded <==> forall v :: 0 <= v < g.N() ==> st[v].Executed? || st[v].Skipped?)
  }

  /** Some round observed this many ready nodes, and none observed more. */
  ghost predicate IsPeak(c: Config, evs: seq<Event>, ss: seq<St>, peak: nat)
    requires WellFormed(c.g) && Trajectory(c, evs, ss)
  {
    && (exists k :: 0 <= k <= |evs| && Theorems.RoundReady(c, evs, ss, k) == peak)
    && forall i :: 0 <= i <= |evs| ==> Theorems.RoundReady(c, evs, ss, i) <= peak
  }

  /** The round counter and the peak: one round for the start and one per event. */
  ghost predicate Counts(c: Config, evs: seq<Event>, o: Outcome)
    requires WellFormed(c.g)
  {
    o.rounds == |evs| + 1 && exists ss :: Trajectory(c, evs, ss) && IsPeak(c, evs, ss, o.maxReady)
  }

  /** The report of a run that has returned: success exactly when no node failed, bounded rounds. */
  ghost predicate SoundReport(c: Config, evs: seq<Event>, o: Outcome)
    requires WellFormed(c.g) && Feasible(c, evs)
  {
    && Tells(c.g, After(c, evs).state, o) && Counts(c, evs, o)
    && (o.succeeded <==> forall id :: id in o.final ==> !o.final[id].Failed?)
    && o.rounds <= 1 + c.g.N() * (1 + c.policy.RetryCap() + c.policy.PatchCap())
  }

  /** What a drained cancellation makes of the states: a running node was cancelled. */
  function Ended(st: seq<NodeState>): seq<NodeState> {
    seq(|st|, v requires 0 <= v < |st| => if st[v].Running? then Cancelled else st[v])
  }

  /** The report of a cancelled run: the drain counts no rounds, and there is no success. */
  ghost predicate AbortReport(c: Config, evs: seq<Event>, o: Outcome)
    requires WellFormed(c.g) && Feasible(c, evs)
  {
    Tells(c.g, Ended(After(c, evs).state), o) && Counts(c, evs, o) && !o.succeeded
  }

  lemma FinalTells(g: Graph, s: St)
    requires Shape(g, s) && UniqueIds(g.nodes)
    ensures Tells(g, s.state, Finalize(g, s))
  {
    FinalMeaning(g, s.state, g.N());
    hide FinalUpTo;
    forall id | id in Finalize(g, s).final
      ensures HasId(g.nodes, id)
    {
      var v :| 0 <= v < g.N() && g.nodes[v].id == id;
    }
  }

  lemma RunCounts(c: Config, evs: seq<Event>, s: St)
    requires Checked(c) && Feasible(c, evs) && Shape(c.g, s)
    requires s.rounds == After(c, evs).rounds && s.maxReady == After(c, evs).maxReady
    ensures Counts(c, evs, Finalize(c.g, s))
  {
    hide After, Trajectory, Feasible, FinalUpTo, Checked, IsPeak, WellFormed, Succeeded;
    Theorems.RunBalanced(c, evs);
    var ss := RunPeak(c, evs);
  }

  lemma RunPeak(c: Config, evs: seq<Event>) returns (ss: seq<St>)
    requires Checked(c) && Feasible(c, evs)
    ensures Trajectory(c, evs, ss) && IsPeak(c, evs, ss, After(c, evs).maxReady)
  {
    hide After, Trajectory, Feasible, Checked, WellFormed, Theorems.RoundReady, Theorems.RoundState;
    ss := TrajectoryOf(c, evs);
    var k := Theorems.PeakIsMaximum(c, evs, ss, |evs|);
  }

  lemma ReturnedReport(c: Config, evs: seq<Event>)
    requires Checked(c) && Acyclic(c.g) && Returned(c, evs)
    ensures SoundReport(c, evs, Finalize(c.g, After(c, evs)))
  {
    var s := After(c, evs);
    assert Feasible(c, evs) && WellFormed(c.g) && Shape(c.g, s);
    hide *;
    NothingFailed(c, evs);
    EventsBounded(c, evs);
    RunCounts(c, evs, s);
    FinalTells(c.g, s);
    NoneFailed(c.g, s.state, Finalize(c.g, s));
    SoundOf(c, evs, Finalize(c.g, s));
  }

  lemma SoundOf(c: Config, evs: seq<Event>, o: Outcome)
    requires WellFormed(c.g) && Feasible(c, evs) && Tells(c.g, After(c, evs).state, o) && Counts(c, evs, o)
    requires o.succeeded <==> forall id :: id in o.final ==> !o.final[id].Failed?
    requires |evs| <= c.g.N() * (1 + c.policy.RetryCap() + c.policy.PatchCap())
    ensures SoundReport(c, evs, o)
  {
    hide After, Tells, WellFormed, Feasible, Shape, Trajectory, IsPeak;
  }

  lemma EventsBounded(c: Config, evs: seq<Event>)
    requires Checked(c) && Feasible(c, evs)
    ensures |evs| <= c.g.N() * (1 + c.policy.RetryCap() + c.policy.PatchCap())
  {
    Theorems.RunIsBounded(c, evs);
    assert 1 + (c.policy.RetryCap() + c.policy.PatchCap()) == 1 + c.policy.RetryCap() + c.policy.PatchCap();
  }

  lemma NothingFailed(c: Config, evs: seq<Event>)
    requires Checked(c) && Acyclic(c.g) && Returned(c, evs)
    ensures var st := After(c, evs).state;
      && UniqueIds(c.g.nodes) && (forall v :: 0 <= v < |st| ==> !st[v].Cancelled?)
      && ((forall v :: 0 <= v < |st| ==> !st[v].Failed?) ==> AllTerminal(st))
  {
    Theorems.NoSilentDeadlock(c, evs);
    Theorems.RunBalanced(c, evs);
    hide After, Acyclic, Poll, Feasible;
  }

  lemma NoneFailed(g: Graph, st: seq<NodeState>, o: Outcome)
    requires |st| == g.N() && Tells(g, st, o)
    requires forall v :: 0 <= v < |st| ==> !st[v].Cancelled?
    requires (forall v :: 0 <= v < |st| ==> !st[v].Failed?) ==> AllTerminal(st)
    ensures o.succeeded <==> forall id :: id in o.final ==> !o.final[id].Failed?
  {
  }

  lemma {:induction false} DrainKeepsCounts(g: Graph, s: St, vs: seq<nat>)
    requires Shape(g, s) && forall i :: 0 <= i < |vs| ==> vs[i] < g.N()
    ensures Drain(g, s, vs).rounds == s.rounds && Drain(g, s, vs).maxReady == s.maxReady
  {
    if |vs| > 0 { DrainKeepsCounts(g, s, vs[..|vs| - 1]); }
  }

  lemma CancelledReport(c: Config, evs: seq<Event>, vs: seq<nat>)
    requires Checked(c) && Feasible(c, evs) && Poll(c, After(c, evs)).Wait?
    requires DrainFeasible(c.g, After(c, evs), vs) && Drain(c.g, After(c, evs), vs).inFlight == 0
    ensures AbortReport(c, evs, Finalize(c.g, Drain(c.g, After(c, evs), vs)))
  {
    var s := After(c, evs);
    DrainKeepsCounts(c.g, s, vs);
    var t := Drain(c.g, s, vs);
    assert UniqueIds(c.g.nodes);
    hide After, Drain, Feasible, DrainFeasible, Poll, FinalUpTo, Counts, Tells, WellFormed, Succeeded, Checked, IsPeak;
    Theorems.CancelledRun(c, evs, vs);
    RunCounts(c, evs, t);
    FinalTells(c.g, t);
    assert t.state == Ended(s.state);
  }
}
