/** Who is dispatched, in which order, and with what (engine/scheduler/scheduler.go:166-180, 234-289).
    The code scans the plan; here is what the scan amounts to, and what a worker was given. */
module Dispatching {
  import opened Plans
  import opened Graphs
  import opened Lists
  import opened Recovery
  import opened Traces
  import opened Machine
  import opened Steps
  import opened Invariants
  import opened LoopHead

  // ---- who gets a slot ----------------------------------------------------------------------------

  /** The ready nodes from i up to v that may run beside others. */
  function Ahead(g: Graph, st: seq<NodeState>, i: nat, v: nat): nat
    requires i <= v <= g.N() == |st|
    decreases v
  {
    if v == i then 0
    else Ahead(g, st, i, v - 1) + if st[v - 1] == Ready && g.nodes[v - 1].sideEffect != Destructive then 1 else 0
  }

  ghost predicate NoneReady(st: seq<NodeState>, i: nat, v: nat)
    requires v <= |st|
  {
    forall u :: i <= u < v ==> st[u] != Ready
  }

  /** A destructive node takes the whole run before v is looked at. */
  ghost predicate Claimed(g: Graph, st: seq<NodeState>, i: nat, v: nat)
    requires v <= g.N() == |st|
  {
    exists d :: i <= d < v && st[d] == Ready && g.nodes[d].sideEffect == Destructive && NoneReady(st, i, d)
  }

  /** A scan from i on dispatches v: a destructive node only if nothing runs and no node before it is
      ready; any other node if the slots last until it, unless a destructive node was dispatched. */
  ghost predicate GetsSlot(c: Config, s: St, i: nat, v: nat)
    requires Shape(c.g, s) && i <= v < c.g.N()
  {
    && s.state[v] == Ready
    && if c.g.nodes[v].sideEffect == Destructive then
         s.inFlight == 0 < c.maxParallel && NoneReady(s.state, i, v)
       else
         s.inFlight + Ahead(c.g, s.state, i, v) < c.maxParallel
         && !(s.inFlight == 0 && Claimed(c.g, s.state, i, v))
  }

  /** A worker for v gets the outputs of all its executed predecessors, for either kind of join. */
  ghost predicate Given(g: Graph, s: St, v: nat, job: Job)
    requires WellFormed(g) && Shape(g, s) && v < g.N()
  {
    && job.inputs.Keys == (set u | u in g.preds[v] && s.state[u] == Executed)
    && (forall u :: u in g.preds[v] && s.state[u] == Executed ==> job.inputs[u] == s.output[u])
    && job.tries == s.attempt[v].retries + s.attempt[v].patches
  }

  function DispatchMoves(vs: seq<nat>): seq<Move> {
    seq(|vs|, k requires 0 <= k < |vs| => Move(vs[k], Ready, Running, Traces.Dispatch, ""))
  }

  /** t is s after exactly the nodes vs were dispatched, in that order. */
  ghost predicate Dispatched(g: Graph, s: St, t: St, vs: seq<nat>)
    requires WellFormed(g) && Shape(g, s) && Shape(g, t)
  {
    && t.inFlight == s.inFlight + |vs| && t.workers == s.workers + multiset(vs)
    && t.trace == s.trace + DispatchMoves(vs)
    && t.attempt == s.attempt && t.output == s.output && t.rounds == s.rounds && t.maxReady == s.maxReady
    && forall v :: 0 <= v < g.N() ==>
         if v in vs then t.state[v] == Running && Given(g, s, v, t.job[v])
         else t.state[v] == s.state[v] && t.job[v] == s.job[v]
  }

  // ---- one dispatch -------------------------------------------------------------------------------

  lemma InputsMeaning(g: Graph, s: St, v: nat)
    requires WellFormed(g) && Shape(g, s) && v < g.N()
    ensures InputsFor(g, s, v).Keys == (set u | u in g.preds[v] && s.state[u] == Executed)
    ensures forall u :: u in g.preds[v] && s.state[u] == Executed ==> InputsFor(g, s, v)[u] == s.output[u]
  {
  }

  lemma LaunchMeaning(g: Graph, s: St, v: nat)
    requires WellFormed(g) && Shape(g, s) && v < g.N() && s.state[v] == Ready
    ensures Dispatched(g, s, LaunchOne(g, s, v), [v])
  {
    InputsMeaning(g, s, v);
    assert multiset([v]) == multiset{v};
    assert DispatchMoves([v]) == [Move(v, Ready, Running, Traces.Dispatch, "")];
    hide InputsFor, WellFormed, DispatchMoves;
  }

  /** Dispatching makes nobody executed, so later workers are given the same. */
  lemma GivenKept(g: Graph, s: St, t: St, v: nat, job: Job)
    requires WellFormed(g) && Shape(g, s) && Shape(g, t) && v < g.N() && Given(g, t, v, job)
    requires t.output == s.output && t.attempt == s.attempt
    requires forall u :: 0 <= u < g.N() ==> (t.state[u] == Executed <==> s.state[u] == Executed)
    ensures Given(g, s, v, job)
  {
    assert (set u | u in g.preds[v] && s.state[u] == Executed) == (set u | u in g.preds[v] && t.state[u] == Executed);
  }

  lemma DispatchedMore(g: Graph, s: St, v: nat, s': St, vs: seq<nat>, t: St)
    requires WellFormed(g) && Shape(g, s) && Shape(g, s') && Shape(g, t) && v < g.N() && s.state[v] == Ready
    requires Dispatched(g, s, s', [v]) && Dispatched(g, s', t, vs) && v !in vs
    requires forall x :: x in vs ==> x < g.N() && s.state[x] == Ready
    ensures Dispatched(g, s, t, [v] + vs)
  {
    assert multiset([v] + vs) == multiset([v]) + multiset(vs);
    assert DispatchMoves([v] + vs) == DispatchMoves([v]) + DispatchMoves(vs);
    assert forall x: nat :: x in [v] + vs <==> x == v || x in vs;
    assert forall u :: 0 <= u < g.N() ==> (s'.state[u] == Executed <==> s.state[u] == Executed);
    hide Given, DispatchMoves, WellFormed;
    forall x | 0 <= x < g.N() && x in vs
      ensures Given(g, s, x, t.job[x])
    {
      GivenKept(g, s, s', x, t.job[x]);
    }
  }

  lemma NothingDispatched(g: Graph, s: St)
    requires WellFormed(g) && Shape(g, s)
    ensures Dispatched(g, s, s, [])
  {
  }

  // ---- the scan -----------------------------------------------------------------------------------

  lemma {:induction false} AheadFirst(g: Graph, st: seq<NodeState>, i: nat, v: nat)
    requires i < v <= g.N() == |st|
    ensures Ahead(g, st, i, v) ==
      Ahead(g, st, i + 1, v) + if st[i] == Ready && g.nodes[i].sideEffect != Destructive then 1 else 0
    decreases v
  {
    if v > i + 1 { AheadFirst(g, st, i, v - 1); }
  }

  lemma {:induction false} SameAhead(g: Graph, st: seq<NodeState>, st': seq<NodeState>, i: nat, v: nat)
    requires i <= v <= g.N() == |st| == |st'| && forall u :: i <= u < v ==> st[u] == st'[u]
    ensures Ahead(g, st, i, v) == Ahead(g, st', i, v)
    decreases v
  {
    if v > i { SameAhead(g, st, st', i, v - 1); }
  }

  /** A node that is not ready, or is destructive while something runs, is passed over. */
  lemma SlotPassed(c: Config, s: St, i: nat, v: nat)
    requires Shape(c.g, s) && i < v < c.g.N()
    requires s.state[i] != Ready || (c.g.nodes[i].sideEffect == Destructive && s.inFlight != 0)
    ensures GetsSlot(c, s, i, v) <==> GetsSlot(c, s, i + 1, v)
  {
    AheadFirst(c.g, s.state, i, v);
    hide Ahead;
    assert s.state[i] != Ready ==> (NoneReady(s.state, i, v) <==> NoneReady(s.state, i + 1, v));
    if s.state[i] != Ready { ClaimPassed(c.g, s.state, i, v); }
  }

  lemma ClaimPassed(g: Graph, st: seq<NodeState>, i: nat, v: nat)
    requires i < v <= g.N() == |st| && st[i] != Ready
    ensures Claimed(g, st, i, v) <==> Claimed(g, st, i + 1, v)
  {
    assert forall d :: i < d < v ==> (NoneReady(st, i, d) <==> NoneReady(st, i + 1, d));
  }

  /** A slot taken by node i is missing for those behind it, and destructive ones have to wait. */
  lemma SlotTaken(c: Config, s: St, t: St, i: nat, v: nat)
    requires Shape(c.g, s) && Shape(c.g, t) && i < v < c.g.N() && s.inFlight >= 0
    requires s.state[i] == Ready && c.g.nodes[i].sideEffect != Destructive
    requires t.inFlight == s.inFlight + 1 && forall u :: 0 <= u < c.g.N() && u != i ==> t.state[u] == s.state[u]
    ensures GetsSlot(c, s, i, v) <==> GetsSlot(c, t, i + 1, v)
  {
    AheadFirst(c.g, s.state, i, v);
    SameAhead(c.g, s.state, t.state, i + 1, v);
    assert !Claimed(c.g, s.state, i, v);
    hide Ahead;
  }

  lemma SlotAlone(c: Config, s: St, i: nat, v: nat)
    requires Shape(c.g, s) && i < v < c.g.N() && s.inFlight == 0
    requires s.state[i] == Ready && c.g.nodes[i].sideEffect == Destructive
    ensures !GetsSlot(c, s, i, v)
  {
    assert NoneReady(s.state, i, i);
    assert Claimed(c.g, s.state, i, v);
  }

  ghost predicate ScanTakes(c: Config, s: St, i: nat, vs: seq<nat>)
    requires Shape(c.g, s) && i <= c.g.N()
  {
    Increasing(vs) && forall v: nat :: v in vs <==> i <= v < c.g.N() && GetsSlot(c, s, i, v)
  }

  lemma {:induction false} ScanMeaning(c: Config, s: St, i: nat) returns (vs: seq<nat>)
    requires WellFormed(c.g) && Shape(c.g, s) && i <= c.g.N() && s.inFlight >= 0
    ensures ScanTakes(c, s, i, vs) && Dispatched(c.g, s, ScheduleFrom(c, s, i), vs)
    decreases c.g.N() - i
  {
    hide Dispatched, Ahead, Claimed, NoneReady, WellFormed;
    if i == c.g.N() || s.inFlight >= c.maxParallel {
      vs := [];
      NothingDispatched(c.g, s);
    } else if s.state[i] != Ready || (c.g.IsDestructive(i) && s.inFlight != 0) {
      vs := ScanMeaning(c, s, i + 1);
      PassTakes(c, s, i, vs);
    } else if c.g.IsDestructive(i) {
      vs := [i];
      LaunchMeaning(c.g, s, i);
      AloneTakes(c, s, i);
    } else {
      LaunchMeaning(c.g, s, i);
      var t := LaunchOne(c.g, s, i);
      LaunchFacts(c.g, s, i);
      var rest := ScanMeaning(c, t, i + 1);
      vs := [i] + rest;
      TakenTakes(c, s, t, i, rest);
      DispatchedMore(c.g, s, i, t, rest, ScheduleFrom(c, s, i));
    }
  }

  lemma LaunchFacts(g: Graph, s: St, i: nat)
    requires WellFormed(g) && Shape(g, s) && i < g.N()
    ensures var t := LaunchOne(g, s, i);
      t.inFlight == s.inFlight + 1 && t.state == s.state[i := Running]
  {
    hide InputsFor;
  }

  lemma PassTakes(c: Config, s: St, i: nat, vs: seq<nat>)
    requires Shape(c.g, s) && i < c.g.N() && ScanTakes(c, s, i + 1, vs)
    requires s.state[i] != Ready || (c.g.nodes[i].sideEffect == Destructive && s.inFlight != 0)
    ensures ScanTakes(c, s, i, vs)
  {
    assert !GetsSlot(c, s, i, i);
    hide GetsSlot, Increasing;
    forall v: nat | i < v < c.g.N()
      ensures GetsSlot(c, s, i, v) <==> GetsSlot(c, s, i + 1, v)
    {
      SlotPassed(c, s, i, v);
    }
  }

  lemma AloneTakes(c: Config, s: St, i: nat)
    requires Shape(c.g, s) && i < c.g.N() && s.inFlight == 0 < c.maxParallel
    requires s.state[i] == Ready && c.g.nodes[i].sideEffect == Destructive
    ensures ScanTakes(c, s, i, [i])
  {
    assert GetsSlot(c, s, i, i);
    hide GetsSlot;
    forall v: nat | i < v < c.g.N()
      ensures !GetsSlot(c, s, i, v)
    {
      SlotAlone(c, s, i, v);
    }
  }

  lemma TakenTakes(c: Config, s: St, t: St, i: nat, rest: seq<nat>)
    requires Shape(c.g, s) && Shape(c.g, t) && i < c.g.N() && 0 <= s.inFlight < c.maxParallel
    requires s.state[i] == Ready && c.g.nodes[i].sideEffect != Destructive
    requires t.inFlight == s.inFlight + 1 && t.state == s.state[i := Running]
    requires ScanTakes(c, t, i + 1, rest)
    ensures ScanTakes(c, s, i, [i] + rest) && i !in rest
    ensures forall x :: x in rest ==> x < c.g.N() && s.state[x] == Ready
  {
    assert GetsSlot(c, s, i, i);
    assert forall x :: x in rest ==> i < x < c.g.N() && t.state[x] == Ready;
    IncreasingFirst(i, rest);
    hide GetsSlot, Increasing;
    forall v: nat | i < v < c.g.N()
      ensures GetsSlot(c, s, i, v) <==> GetsSlot(c, t, i + 1, v)
    {
      SlotTaken(c, s, t, i, v);
    }
    assert forall v: nat :: v in [i] + rest <==> v == i || v in rest;
  }

  // ---- main results about dispatching ---------------------------------------------------------------

  ghost predicate MayDispatch(c: Config, s: St, v: nat)
    requires Shape(c.g, s)
  {
    && v < c.g.N() && GetsSlot(c, s, 0, v)
    && forall d :: 0 <= d < c.g.N() && s.state[d] == Running ==> c.g.nodes[d].sideEffect != Destructive
  }

  /** `schedule` starts exactly the nodes that get a slot while no destructive node runs, in plan order,
      each with the outputs of all its executed predecessors, and changes nothing else. */
  lemma ScheduleMeaning(c: Config, s: St) returns (vs: seq<nat>)
    requires WellFormed(c.g) && Shape(c.g, s) && s.inFlight >= 0
    ensures Increasing(vs) && forall v: nat :: v in vs <==> MayDispatch(c, s, v)
    ensures Dispatched(c.g, s, Schedule(c, s), vs)
  {
    if DestructiveRunning(c.g, s.state) {
      vs := [];
      NothingDispatched(c.g, s);
    } else {
      vs := ScanMeaning(c, s, 0);
      hide Dispatched, GetsSlot, ScheduleFrom;
    }
  }

  /** t is s after `schedule`: exactly the nodes that get a slot were dispatched, in plan order. */
  ghost predicate Scheduled(c: Config, s: St, t: St)
    requires WellFormed(c.g) && Shape(c.g, s) && Shape(c.g, t)
  {
    exists vs :: Increasing(vs) && (forall v: nat :: v in vs <==> MayDispatch(c, s, v)) && Dispatched(c.g, s, t, vs)
  }

  /** So slots go in plan order, and a destructive node goes alone. */
  lemma SlotsInPlanOrder(c: Config, s: St, u: nat, v: nat)
    requires WellFormed(c.g) && Shape(c.g, s) && s.inFlight >= 0 && u < c.g.N() && v < c.g.N() && u != v
    requires s.state[u] == Ready && s.state[v] == Ready && Schedule(c, s).state[v] == Running
    ensures u < v && c.g.nodes[u].sideEffect != Destructive ==> Schedule(c, s).state[u] == Running
    ensures c.g.nodes[v].sideEffect == Destructive ==> s.inFlight == 0 && v < u && Schedule(c, s).state[u] == Ready
  {
    var vs := ScheduleMeaning(c, s);
    assert v in vs && (u in vs <==> MayDispatch(c, s, u));
    hide Schedule, Given;
    if u < v && c.g.nodes[u].sideEffect != Destructive {
      AheadGrows(c.g, s.state, u, v);
      assert Claimed(c.g, s.state, 0, u) ==> Claimed(c.g, s.state, 0, v);
    }
    if c.g.nodes[v].sideEffect == Destructive && v < u {
      assert Claimed(c.g, s.state, 0, u);
    }
  }

  lemma {:induction false} AheadGrows(g: Graph, st: seq<NodeState>, u: nat, v: nat)
    requires u <= v <= g.N() == |st|
    ensures Ahead(g, st, 0, u) <= Ahead(g, st, 0, v)
    decreases v
  {
    if u < v { AheadGrows(g, st, u, v - 1); }
  }

  // ---- inputs, read off the log ---------------------------------------------------------------------

  /** When v was last dispatched, u was executed. */
  function WasDone(t: seq<Move>, v: nat, u: nat): bool {
    if |t| == 0 then false
    else
      var init, m := t[..|t| - 1], t[|t| - 1];
      if m.node == v && m.to == Running then StateAfter(init, u) == Executed else WasDone(init, v, u)
  }

  lemma DoneAppend(t: seq<Move>, m: Move, v: nat, u: nat)
    ensures WasDone(t + [m], v, u) <==>
      if m.node == v && m.to == Running then StateAfter(t, u) == Executed else WasDone(t, v, u)
  {
    assert (t + [m])[..|t|] == t;
  }

  ghost predicate InputsAt(g: Graph, s: St, v: nat)
    requires WellFormed(g) && Shape(g, s) && v < g.N()
  {
    forall u: nat :: u in s.job[v].inputs <==> u in g.preds[v] && WasDone(s.trace, v, u)
  }

  ghost predicate InputsKnown(g: Graph, s: St)
    requires WellFormed(g) && Shape(g, s)
  {
    forall v :: 0 <= v < g.N() && s.state[v] == Running ==> InputsAt(g, s, v)
  }

  /** A move that dispatches nobody. */
  lemma MoveKnown(g: Graph, s: St, t: St, m: Move)
    requires WellFormed(g) && Shape(g, s) && Shape(g, t) && InputsKnown(g, s) && m.to != Running
    requires t.trace == s.trace + [m] && t.job == s.job
    requires forall v :: 0 <= v < g.N() && t.state[v] == Running ==> s.state[v] == Running
    ensures InputsKnown(g, t)
  {
    hide WasDone;
    forall v | 0 <= v < g.N() && t.state[v] == Running
      ensures InputsAt(g, t, v)
    {
      assert InputsAt(g, s, v);
      forall u: nat
        ensures WasDone(t.trace, v, u) <==> WasDone(s.trace, v, u)
      {
        DoneAppend(s.trace, m, v, u);
      }
    }
  }

  lemma LaunchKnown(g: Graph, s: St, v: nat)
    requires WellFormed(g) && Shape(g, s) && InputsKnown(g, s) && Traced(g, s) && v < g.N() && s.state[v] == Ready
    ensures InputsKnown(g, LaunchOne(g, s, v))
  {
    var t, m := LaunchOne(g, s, v), Move(v, Ready, Running, Traces.Dispatch, "");
    InputsMeaning(g, s, v);
    assert t.trace == s.trace + [m];
    assert forall u :: 0 <= u < g.N() ==> StateAfter(s.trace, u) == s.state[u];
    hide WasDone, InputsFor, Traced, StateAfter;
    forall x | 0 <= x < g.N() && t.state[x] == Running
      ensures InputsAt(g, t, x)
    {
      assert x != v ==> InputsAt(g, s, x);
      forall u: nat
        ensures WasDone(t.trace, x, u) <==>
          if x == v then StateAfter(s.trace, u) == Executed else WasDone(s.trace, x, u)
      {
        DoneAppend(s.trace, m, x, u);
      }
    }
  }

  lemma StepKnown(c: Config, s: St, a: Step)
    requires WellFormed(c.g) && Shape(c.g, s) && InputsKnown(c.g, s) && Traced(c.g, s) && Enabled(c, s, a)
    ensures InputsKnown(c.g, Do(c, s, a))
  {
    hide InputsAt, Traced;
    match a
    case Promote(v) => MoveKnown(c.g, s, Do(c, s, a), Move(v, Pending, Ready, DepsMet, ""));
    case Launch(v) => LaunchKnown(c.g, s, v);
    case SkipLoser(v, j, w) => MoveKnown(c.g, s, Do(c, s, a), Move(v, s.state[v], Skipped, Skip, ""));
    case Round => SameKnown(c.g, s, Tick(s));
  }

  lemma SameKnown(g: Graph, s: St, t: St)
    requires WellFormed(g) && Shape(g, s) && Shape(g, t) && InputsKnown(g, s)
    requires t.state == s.state && t.job == s.job && t.trace == s.trace
    ensures InputsKnown(g, t)
  {
  }

  lemma {:induction false} FollowsKnown(c: Config, s: St, acts: seq<Step>, t: St)
    requires Checked(c) && Inv(c, s) && InputsKnown(c.g, s) && Follows(c, s, acts, t)
    ensures Shape(c.g, t) && InputsKnown(c.g, t)
    decreases |acts|
  {
    if |acts| > 0 {
      StepInv(c, s, acts[0]);
      StepKnown(c, s, acts[0]);
      hide Inv, InputsKnown, Enabled, Do, Checked;
      FollowsKnown(c, Do(c, s, acts[0]), acts[1..], t);
    }
  }

  lemma AbsorbKnown(c: Config, s: St, v: nat, r: Result)
    requires WellFormed(c.g) && Shape(c.g, s) && InputsKnown(c.g, s) && v < c.g.N() && s.state[v] == Running
    ensures InputsKnown(c.g, Absorb(c, s, v, r))
  {
    var t := Absorb(c, s, v, r);
    AbsorbEffect(c, s, v, r);
    AbsorbTrace(c, s, v, r);
    hide Absorb, InputsKnown, Decide;
    if r.err == None {
      MoveKnown(c.g, s, t, SuccessMove(v));
    } else {
      var mid := s.(trace := s.trace + [FailMove(v, r)]);
      MoveKnown(c.g, s, mid, FailMove(v, r));
      MoveKnown(c.g, mid, t, DecisionMove(v, Decide(c.policy, s.attempt[v], r)));
    }
  }

  lemma HandleKnown(c: Config, s: St, e: Event)
    requires Checked(c) && Inv(c, s) && InputsKnown(c.g, s) && e.node in s.workers
    ensures e.node < c.g.N() && InputsKnown(c.g, Handle(c, s, e))
  {
    EventSource(c, s, e.node);
    assert Shape(c.g, s);
    var acts := HandleSteps(c, s, e);
    hide Inv, InputsKnown, Absorb, Handle, Follows;
    if s.state[e.node].IsTerminal() {
      SameKnown(c.g, s, Receive(s, e.node));
      ReceiveInv(c, s, e.node);
      FollowsKnown(c, Receive(s, e.node), acts, Handle(c, s, e));
    } else {
      AbsorbKnown(c, s, e.node, e.result);
      AbsorbInv(c, s, e.node, e.result);
      FollowsKnown(c, Absorb(c, s, e.node, e.result), acts, Handle(c, s, e));
    }
  }

  lemma StartKnown(c: Config)
    requires Checked(c)
    ensures InputsKnown(c.g, Start(c))
  {
    var acts := StartSteps(c);
    assert InputsKnown(c.g, Blank(c.g));
    BlankInv(c);
    hide Inv, InputsKnown, Start, Follows;
    FollowsKnown(c, Blank(c.g), acts, Start(c));
  }

  lemma {:induction false} RunKnown(c: Config, evs: seq<Event>)
    requires Checked(c) && Feasible(c, evs)
    ensures InputsKnown(c.g, After(c, evs))
    decreases |evs|
  {
    hide After, Handle, AtHead, InputsKnown, Start, Poll;
    if |evs| == 0 {
      NoEvents(c);
      assert evs == [];
      StartKnown(c);
    } else {
      LastPass(c, evs);
      RunKnown(c, evs[..|evs| - 1]);
      RunAtHead(c, evs[..|evs| - 1]);
      PassKnown(c, After(c, evs[..|evs| - 1]), evs[|evs| - 1]);
    }
  }

  lemma PassKnown(c: Config, s: St, e: Event)
    requires Checked(c) && AtHead(c, s) && InputsKnown(c.g, s) && e.node in s.workers && e.node < c.g.N()
    ensures InputsKnown(c.g, Handle(c, s, e))
  {
    hide Inv, Handle, InputsKnown;
    HandleKnown(c, s, e);
  }

  lemma {:induction false} DrainKnown(g: Graph, s: St, vs: seq<nat>)
    requires WellFormed(g) && Shape(g, s) && InputsKnown(g, s) && forall i :: 0 <= i < |vs| ==> vs[i] < g.N()
    ensures InputsKnown(g, Drain(g, s, vs))
    decreases |vs|
  {
    hide InputsKnown, DrainOne;
    if |vs| > 0 {
      DrainKnown(g, s, vs[..|vs| - 1]);
      DrainOneKnown(g, Drain(g, s, vs[..|vs| - 1]), vs[|vs| - 1]);
    }
  }

  lemma DrainOneKnown(g: Graph, s: St, v: nat)
    requires WellFormed(g) && Shape(g, s) && InputsKnown(g, s) && v < g.N()
    ensures InputsKnown(g, DrainOne(g, s, v))
  {
    hide InputsAt;
    if s.state[v].IsTerminal() {
      SameKnown(g, s, DrainOne(g, s, v));
    } else {
      MoveKnown(g, s, DrainOne(g, s, v), Move(v, s.state[v], Cancelled, Cancel, ""));
    }
  }

  /** In every reachable state a running node, any_of or all_of, works on exactly the outputs of the
      predecessors that were executed when it was last dispatched. */
  lemma RunningInputs(c: Config, s: St, v: nat)
    requires Checked(c) && Reachable(c, s) && Shape(c.g, s) && v < c.g.N() && s.state[v] == Running
    ensures s.job[v].inputs.Keys == (set u | u in c.g.preds[v] && WasDone(s.trace, v, u))
    ensures forall u :: u in c.g.preds[v] && WasDone(s.trace, v, u) ==> s.job[v].inputs[u] == s.output[u]
  {
    var evs, vs :| Feasible(c, evs) && DrainFeasible(c.g, After(c, evs), vs)
      && (vs != [] ==> Poll(c, After(c, evs)).Wait?) && s == Drain(c.g, After(c, evs), vs);
    ReachableInv(c, s);
    hide After, Drain, Poll, InputsKnown, Reachable;
    RunKnown(c, evs);
    DrainKnown(c.g, After(c, evs), vs);
    hide Feasible, DrainFeasible;
    KnownInputs(c, s, v);
  }

  lemma KnownInputs(c: Config, s: St, v: nat)
    requires WellFormed(c.g) && Inv(c, s) && InputsKnown(c.g, s) && v < c.g.N() && s.state[v] == Running
    ensures s.job[v].inputs.Keys == (set u | u in c.g.preds[v] && WasDone(s.trace, v, u))
    ensures forall u :: u in c.g.preds[v] && WasDone(s.trace, v, u) ==> s.job[v].inputs[u] == s.output[u]
  {
    assert InputsAt(c.g, s, v) && SuppliedNode(c.g, s, v);
    hide Inv, WasDone;
  }
}
