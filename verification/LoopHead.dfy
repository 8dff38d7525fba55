/** What holds whenever the loop is about to wait or leave: no pending node is promotable, and
    nothing is ready while no worker runs. Hence the retry branch of the loop head
    (scheduler.go:333-342) is dead. */
module LoopHead {
  import opened Plans
  import opened Graphs
  import opened Lists
  import opened Recovery
  import opened Machine
  import opened Steps
  import opened Invariants

  ghost predicate Promoted(g: Graph, st: seq<NodeState>)
    requires WellFormed(g) && |st| == g.N()
  {
    forall v :: 0 <= v < g.N() && st[v].Pending? ==> !DepsSatisfied(g, st, v)
  }

  ghost predicate NothingReady(st: seq<NodeState>) {
    forall v :: 0 <= v < |st| ==> !st[v].Ready?
  }

  /** A ready node waits only for a free slot, or because of a destructive node. */
  ghost predicate WorkConserving(c: Config, s: St)
    requires Shape(c.g, s)
  {
    || s.inFlight >= c.maxParallel
    || DestructiveRunning(c.g, s.state)
    || forall v :: 0 <= v < c.g.N() && s.state[v].Ready? ==> c.g.IsDestructive(v) && s.inFlight > 0
  }

  ghost predicate AtHead(c: Config, s: St)
    requires WellFormed(c.g)
  {
    && Inv(c, s) && Promoted(c.g, s.state)
    && (s.inFlight == 0 ==> NothingReady(s.state)) && WorkConserving(c, s)
  }

  // ---- promotion reaches a fixed point ----------------------------------------------------------

  lemma SameDone(g: Graph, st: seq<NodeState>, st': seq<NodeState>, v: nat)
    requires WellFormed(g) && |st| == |st'| == g.N() && v < g.N()
    requires forall u :: 0 <= u < g.N() ==>
      (st[u].Executed? <==> st'[u].Executed?) && (st[u].Skipped? <==> st'[u].Skipped?)
    ensures DepsSatisfied(g, st, v) <==> DepsSatisfied(g, st', v)
  {
  }

  lemma {:induction false} PromoteCloses(g: Graph, s: St, i: nat)
    requires WellFormed(g) && Shape(g, s) && i <= g.N()
    requires forall v :: 0 <= v < i && s.state[v].Pending? ==> !DepsSatisfied(g, s.state, v)
    ensures Promoted(g, PromoteFrom(g, s, i).state)
    decreases g.N() - i
  {
    if i < g.N() {
      if s.state[i].Pending? && DepsSatisfied(g, s.state, i) {
        var t := PromoteOne(g, s, i);
        forall v | 0 <= v < i + 1 && t.state[v].Pending?
          ensures !DepsSatisfied(g, t.state, v)
        {
          SameDone(g, s.state, t.state, v);
        }
        PromoteCloses(g, t, i + 1);
      } else {
        PromoteCloses(g, s, i + 1);
      }
    }
  }

  /** The scan promotes exactly the pending nodes whose join is met. */
  lemma {:induction false} PromoteEffect(g: Graph, s: St, i: nat, v: nat)
    requires WellFormed(g) && Shape(g, s) && i <= g.N() && v < g.N()
    ensures PromoteFrom(g, s, i).state[v] ==
      if v >= i && s.state[v].Pending? && DepsSatisfied(g, s.state, v) then Ready else s.state[v]
    decreases g.N() - i
  {
    if i < g.N() {
      if s.state[i].Pending? && DepsSatisfied(g, s.state, i) {
        var t := PromoteOne(g, s, i);
        SameDone(g, s.state, t.state, v);
        hide DepsSatisfied;
        PromoteEffect(g, t, i + 1, v);
      } else {
        PromoteEffect(g, s, i + 1, v);
      }
    }
  }

  lemma {:induction false} SeedShape(g: Graph, s: St, i: nat)
    requires WellFormed(g) && Shape(g, s) && i <= g.N()
    requires forall v :: 0 <= v < g.N() ==> s.state[v] == if v < i && g.preds[v] == [] then Ready else Pending
    ensures var t := SeedFrom(g, s, i);
      forall v :: 0 <= v < g.N() ==> t.state[v] == if g.preds[v] == [] then Ready else Pending
    decreases g.N() - i
  {
    if i < g.N() {
      SeedShape(g, if g.preds[i] == [] then PromoteOne(g, s, i) else s, i + 1);
    }
  }

  lemma SeedCloses(g: Graph)
    requires WellFormed(g)
    ensures Promoted(g, SeedFrom(g, Blank(g), 0).state)
  {
    SeedShape(g, Blank(g), 0);
    forall v | 0 <= v < g.N() && g.preds[v] != []
      ensures !DepsSatisfied(g, SeedFrom(g, Blank(g), 0).state, v)
    {
      assert g.preds[v][0] in g.preds[v];
    }
  }

  // ---- dispatching ------------------------------------------------------------------------------

  /** Only ready nodes change, and only to running. */
  predicate OnlyLaunched(st: seq<NodeState>, st': seq<NodeState>) {
    |st| == |st'| && forall v :: 0 <= v < |st| ==> st'[v] == st[v] || (st[v].Ready? && st'[v].Running?)
  }

  lemma {:induction false} ScheduleFromLaunches(c: Config, s: St, i: nat)
    requires WellFormed(c.g) && Shape(c.g, s) && i <= c.g.N() && s.inFlight >= 0 && c.maxParallel >= 1
    requires forall v :: 0 <= v < i && s.state[v].Ready? ==> c.g.IsDestructive(v) && s.inFlight > 0
    ensures var t := ScheduleFrom(c, s, i);
      OnlyLaunched(s.state, t.state) && WorkConserving(c, t) && (t.inFlight == 0 ==> NothingReady(t.state))
    decreases c.g.N() - i
  {
    if i == c.g.N() || s.inFlight >= c.maxParallel {
    } else if !s.state[i].Ready? || (c.g.IsDestructive(i) && s.inFlight != 0) {
      ScheduleFromLaunches(c, s, i + 1);
    } else if c.g.IsDestructive(i) {
      assert LaunchOne(c.g, s, i).state[i].Running?;
    } else {
      ScheduleFromLaunches(c, LaunchOne(c.g, s, i), i + 1);
    }
  }

  lemma ScheduleSettles(c: Config, s: St)
    requires Checked(c) && Accounted(c, s) && Promoted(c.g, s.state)
    ensures Promoted(c.g, Schedule(c, s).state)
    ensures Schedule(c, s).inFlight == 0 ==> NothingReady(Schedule(c, s).state)
    ensures WorkConserving(c, Schedule(c, s)) && OnlyLaunched(s.state, Schedule(c, s).state)
  {
    var t := Schedule(c, s);
    if DestructiveRunning(c.g, s.state) {
      var d :| 0 <= d < c.g.N() && s.state[d].Running? && c.g.IsDestructive(d);
      assert s.workers[d] == 1 && d in s.workers;
      assert s.workers == s.workers - multiset{d} + multiset{d};
    } else {
      ScheduleFromLaunches(c, s, 0);
      forall v | 0 <= v < c.g.N() && t.state[v].Pending?
        ensures !DepsSatisfied(c.g, t.state, v)
      {
        SameDone(c.g, s.state, t.state, v);
      }
    }
  }

  // ---- the loop head ----------------------------------------------------------------------------

  lemma SeedInv(c: Config)
    requires Checked(c)
    ensures Inv(c, SeedFrom(c.g, Blank(c.g), 0))
  {
    BlankInv(c);
    var acts := SeedSteps(c, Blank(c.g), 0);
    FollowsInv(c, Blank(c.g), acts, SeedFrom(c.g, Blank(c.g), 0));
  }

  lemma StartAtHead(c: Config)
    requires Checked(c)
    ensures AtHead(c, Start(c))
    ensures OnlyLaunched(SeedFrom(c.g, Blank(c.g), 0).state, Start(c).state)
  {
    StartInv(c);
    var seeded := SeedFrom(c.g, Blank(c.g), 0);
    SeedCloses(c.g);
    SeedInv(c);
    ScheduleSettles(c, Tick(seeded));
  }

  lemma SettleInv(c: Config, s: St, v: nat)
    requires Checked(c) && Inv(c, s) && v < c.g.N()
    ensures Inv(c, Settle(c.g, s, v)) && Promoted(c.g, Settle(c.g, s, v).state)
  {
    assert Shape(c.g, s);
    hide Inv;
    var acts := SettleSteps(c, s, v);
    FollowsInv(c, s, acts, Settle(c.g, s, v));
    PromoteCloses(c.g, if s.state[v].Executed? then SkipJoiners(c.g, s, v, 0) else s, 0);
  }

  lemma ObservedInv(c: Config, s: St, e: Event)
    requires Checked(c) && AtHead(c, s) && e.node in s.workers && e.node < c.g.N()
    ensures Inv(c, Observed(c, s, e)) && Promoted(c.g, Observed(c, s, e).state)
    ensures Observed(c, s, e).maxReady == s.maxReady
  {
    EventSource(c, s, e.node);
    assert Absorb(c, s, e.node, e.result).maxReady == s.maxReady;
    hide Inv, Absorb, Settle;
    if s.state[e.node].IsTerminal() {
      ReceiveInv(c, s, e.node);
    } else {
      AbsorbInv(c, s, e.node, e.result);
      SettleInv(c, Absorb(c, s, e.node, e.result), e.node);
    }
  }

  lemma HandleAtHead(c: Config, s: St, e: Event)
    requires Checked(c) && AtHead(c, s) && e.node in s.workers
    ensures e.node < c.g.N() && AtHead(c, Handle(c, s, e))
    ensures OnlyLaunched(Observed(c, s, e).state, Handle(c, s, e).state)
  {
    HandleInv(c, s, e);
    ObservedInv(c, s, e);
    TickAccounted(c, Observed(c, s, e));
    ScheduleSettles(c, Tick(Observed(c, s, e)));
  }

  lemma TickAccounted(c: Config, s: St)
    requires Accounted(c, s)
    ensures Accounted(c, Tick(s))
  {
  }

  lemma {:induction false} ReadyNone(st: seq<NodeState>, i: nat)
    requires i <= |st|
    ensures ReadyUpTo(st, i) == 0 <==> forall v :: 0 <= v < i ==> !st[v].Ready?
  {
    if i > 0 { ReadyNone(st, i - 1); }
  }

  /** The loop head never dispatches: it waits while a worker runs and stops otherwise. */
  lemma PollIsQuiet(c: Config, s: St)
    requires Checked(c) && AtHead(c, s)
    ensures Poll(c, s).s == s
    ensures Poll(c, s).Wait? <==> s.inFlight > 0 && !AllTerminal(s.state)
  {
    ReadyNone(s.state, |s.state|);
  }

  lemma NoEvents(c: Config)
    requires WellFormed(c.g)
    ensures After(c, []) == Start(c) && Feasible(c, [])
  {
  }

  lemma {:induction false} RunAtHead(c: Config, evs: seq<Event>)
    requires Checked(c) && Feasible(c, evs)
    ensures AtHead(c, After(c, evs)) && Poll(c, After(c, evs)).s == After(c, evs)
    decreases |evs|
  {
    hide AtHead, Handle, Start;
    if |evs| == 0 {
      StartAtHead(c);
    } else {
      var init := evs[..|evs| - 1];
      RunAtHead(c, init);
      HandleAtHead(c, After(c, init), evs[|evs| - 1]);
    }
    PollIsQuiet(c, After(c, evs));
  }

  /** A longer run is one more pass of the loop body. */
  lemma RunExtend(c: Config, evs: seq<Event>, e: Event)
    requires Checked(c) && Feasible(c, evs + [e])
    ensures Feasible(c, evs) && e.node < c.g.N() && e.node in After(c, evs).workers
    ensures Poll(c, After(c, evs)).Wait? && After(c, evs + [e]) == Handle(c, After(c, evs), e)
  {
    assert (evs + [e])[..|evs|] == evs;
    RunAtHead(c, evs);
  }

  /** The event of an outstanding worker is accepted while the loop waits, whatever its result. */
  lemma FeasibleExtend(c: Config, evs: seq<Event>, e: Event)
    requires WellFormed(c.g) && Feasible(c, evs) && e.node < c.g.N()
    requires var h := Poll(c, After(c, evs)); h.Wait? && e.node in h.s.workers
    ensures Feasible(c, evs + [e])
  {
    hide After, Poll;
    assert (evs + [e])[..|evs|] == evs;
  }

  lemma RunningReports(c: Config, s: St, v: nat)
    requires Checked(c) && AtHead(c, s) && v < c.g.N() && s.state[v].Running?
    ensures v in s.workers && Poll(c, s).Wait? && Poll(c, s).s == s
  {
    assert s.workers[v] == 1;
    PollIsQuiet(c, s);
    hide Poll;
  }

  /** In particular that of any running node. */
  lemma MayReport(c: Config, evs: seq<Event>, v: nat, r: Result)
    requires Checked(c) && Feasible(c, evs) && v < c.g.N() && After(c, evs).state[v].Running?
    ensures Feasible(c, evs + [Event(v, r)])
    ensures After(c, evs + [Event(v, r)]) == Handle(c, After(c, evs), Event(v, r))
    ensures AtHead(c, After(c, evs)) && v in After(c, evs).workers
  {
    hide After, AtHead, Poll, Handle;
    RunAtHead(c, evs);
    RunningReports(c, After(c, evs), v);
    FeasibleExtend(c, evs, Event(v, r));
    RunExtend(c, evs, Event(v, r));
  }

  /** One pass: the loop waits, and the next state answers the event of an outstanding worker. */
  ghost predicate Passes(c: Config, s: St, e: Event, t: St)
    requires WellFormed(c.g)
  {
    Shape(c.g, s) && Poll(c, s).Wait? && e.node < c.g.N() && e.node in s.workers && t == Handle(c, s, e)
  }

  ghost predicate PassAt(c: Config, evs: seq<Event>, ss: seq<St>, i: nat)
    requires WellFormed(c.g) && i < |evs| == |ss| - 1
  {
    Passes(c, ss[i], evs[i], ss[i + 1])
  }

  /** The states at the loop head, the first one and one after each event. */
  ghost predicate Trajectory(c: Config, evs: seq<Event>, ss: seq<St>)
    requires WellFormed(c.g)
  {
    |ss| == |evs| + 1 && ss[0] == Start(c) && forall i :: 0 <= i < |evs| ==> PassAt(c, evs, ss, i)
  }

  lemma PassAtHead(c: Config, s: St, e: Event, t: St)
    requires Checked(c) && AtHead(c, s) && Passes(c, s, e, t)
    ensures AtHead(c, t)
  {
    hide AtHead, Handle, Poll;
    HandleAtHead(c, s, e);
  }

  lemma {:induction false} TrajectoryAtHead(c: Config, evs: seq<Event>, ss: seq<St>, i: nat)
    requires Checked(c) && Trajectory(c, evs, ss) && i <= |evs|
    ensures AtHead(c, ss[i])
  {
    hide AtHead, Passes, Start;
    if i == 0 {
      StartAtHead(c);
    } else {
      assert PassAt(c, evs, ss, i - 1);
      TrajectoryAtHead(c, evs, ss, i - 1);
      PassAtHead(c, ss[i - 1], evs[i - 1], ss[i]);
    }
  }

  /** Every run has its trajectory, which ends in the run's state. */
  lemma {:induction false} TrajectoryOf(c: Config, evs: seq<Event>) returns (ss: seq<St>)
    requires Checked(c) && Feasible(c, evs)
    ensures Trajectory(c, evs, ss) && ss[|evs|] == After(c, evs)
    decreases |evs|
  {
    if |evs| == 0 {
      ss := [Start(c)];
    } else {
      LastPass(c, evs);
      SplitLast(evs);
      assert WellFormed(c.g);
      hide *;
      var init, e := evs[..|evs| - 1], evs[|evs| - 1];
      var ss' := TrajectoryOf(c, init);
      ss := TrajectoryExtend(c, init, ss', e, After(c, evs));
    }
  }

  lemma LastPass(c: Config, evs: seq<Event>)
    requires Checked(c) && Feasible(c, evs) && |evs| > 0
    ensures Feasible(c, evs[..|evs| - 1]) && InPlan(c.g, evs) && InPlan(c.g, evs[..|evs| - 1])
    ensures Passes(c, After(c, evs[..|evs| - 1]), evs[|evs| - 1], After(c, evs))
  {
    SplitLast(evs);
    hide Handle, Poll, After, AtHead;
    RunExtend(c, evs[..|evs| - 1], evs[|evs| - 1]);
  }

  lemma TrajectoryExtend(c: Config, evs: seq<Event>, ss: seq<St>, e: Event, t: St) returns (ts: seq<St>)
    requires WellFormed(c.g) && Trajectory(c, evs, ss) && Passes(c, ss[|evs|], e, t)
    ensures Trajectory(c, evs + [e], ts) && ts[|evs| + 1] == t
  {
    ts := ss + [t];
    forall i | 0 <= i < |evs| + 1
      ensures PassAt(c, evs + [e], ts, i)
    {
      assert i < |evs| ==> PassAt(c, evs, ss, i);
    }
  }

  lemma {:induction false} DrainInv(c: Config, s: St, vs: seq<nat>)
    requires Checked(c) && Inv(c, s) && DrainFeasible(c.g, s, vs)
    ensures Inv(c, Drain(c.g, s, vs))
    decreases |vs|
  {
    assert Shape(c.g, s);
    hide Inv;
    if |vs| > 0 {
      DrainInv(c, s, vs[..|vs| - 1]);
      DrainOneInv(c, Drain(c.g, s, vs[..|vs| - 1]), vs[|vs| - 1]);
    }
  }

  /** The invariant holds in every reachable state, for every run and every cancellation. */
  lemma ReachableInv(c: Config, s: St)
    requires Checked(c) && Reachable(c, s)
    ensures Inv(c, s)
  {
    var evs, vs :| Feasible(c, evs) && DrainFeasible(c.g, After(c, evs), vs)
      && (vs != [] ==> Poll(c, After(c, evs)).Wait?) && s == Drain(c.g, After(c, evs), vs);
    RunAtHead(c, evs);
    DrainInv(c, After(c, evs), vs);
  }
}
