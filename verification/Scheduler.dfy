/** `Run` (engine/scheduler/scheduler.go:63-504) as it runs: one object whose fields are the
    loop's variables, methods for its closures, and the event loop. Every method is proved
    equal to the function of module Machine with its name; the theorems hold of those. */
module Scheduler {
  import opened Plans
  import opened Graphs
  import opened Lists
  import opened Recovery
  import opened Traces
  import opened Machine
  import opened Invariants
  import opened LoopHead
  import opened Outcomes
  import Dispatching
  import Validate
  import Wal

  class Loop {
    const c: Config
    const log: Wal.MemLog

    var state: seq<NodeState>
    var attempt: seq<Attempt>
    var output: seq<string>
    var inFlight: int
    var seqNo: nat
    var rounds: nat
    var maxReady: nat

    // The goroutines: what the last worker of each node was given, and whose are outstanding.
    var job: seq<Job>
    ghost var workers: multiset<nat>
    ghost var trace: seq<Move>
    // What the log held under this run's id when the run began; nothing if the id is fresh.
    ghost const before: seq<Wal.Entry>
    // What it holds for other runs.
    ghost var foreign: seq<Wal.Entry>

    ghost function Snap(): St
      reads this
    {
      St(state, attempt, output, inFlight, workers, job, trace, rounds, maxReady)
    }

    /** The log has this run's moves appended as numbered entries, whatever else it holds. */
    ghost predicate Logged()
      reads this, log
    {
      && (forall k :: 0 <= k < |trace| ==> trace[k].node < c.g.N())
      && Wal.FilterRun(log.entries, c.run) == before + Render(c.g, c.run, trace)
      && Wal.OtherRuns(log.entries, c.run) == foreign
    }

    ghost predicate Valid()
      reads this, log
    {
      WellFormed(c.g) && Shape(c.g, Snap()) && seqNo == |trace| && Logged()
    }

    constructor (c: Config, log: Wal.MemLog)
      requires WellFormed(c.g)
      ensures this.c == c && this.log == log && before == Wal.FilterRun(log.entries, c.run)
      ensures Valid() && Snap() == Blank(c.g) && foreign == Wal.OtherRuns(log.entries, c.run)
    {
      this.c, this.log, before := c, log, Wal.FilterRun(log.entries, c.run);
      foreign := Wal.OtherRuns(log.entries, c.run);
      var n := c.g.N();
      state, attempt, output := seq(n, _ => Pending), seq(n, _ => FRESH), seq(n, _ => "");
      job := seq(n, _ => Job(map[], 0));
      inFlight, seqNo, rounds, maxReady := 0, 0, 0, 0;
      workers, trace := multiset{}, [];
    }

    /** The chokepoint: change the state, append one entry. */
    method Transition(v: nat, to: NodeState, trigger: Trigger, payload: string)
      requires Valid() && v < c.g.N()
      modifies this`state, this`seqNo, this`trace, log
      ensures Valid() && Snap() == Machine.Transition(c.g, old(Snap()), v, to, trigger, payload)
      ensures log.entries == old(log.entries) +
        [Wal.Entry(c.run, c.g.nodes[v].id, trigger.Name(), old(seqNo), old(state[v]), to, payload)]
    {
      var from := state[v];
      state := state[v := to];
      var e := Wal.Entry(c.run, c.g.nodes[v].id, trigger.Name(), seqNo, from, to, payload);
      seqNo := seqNo + 1;
      log.Append(e);
      ghost var m := Move(v, from, to, trigger, payload);
      trace := trace + [m];
      RenderAppend(c.g, c.run, old(trace), m);
      Wal.FilterAppend(old(log.entries), [e], c.run);
      assert Wal.FilterRun([e], c.run) == [e];
      Wal.OthersAppend(old(log.entries), e, c.run);
      Regroup(before, Render(c.g, c.run, old(trace)), [e]);
    }

    /** Before the loop: the entries, the first round. */
    method Begin()
      requires Valid() && Snap() == Blank(c.g)
      modifies this, log
      ensures Valid() && Snap() == Start(c) && foreign == old(foreign)
    {
      SeedEntries();
      Observe();
      Schedule();
    }

    /** Another run's entries in the same log do not disturb this one. */
    method OtherRunAppends(e: Wal.Entry)
      requires Valid() && e.runId != c.run
      modifies this`foreign, log
      ensures Valid() && Snap() == old(Snap()) && log.entries == old(log.entries) + [e]
    {
      log.Append(e);
      foreign := foreign + [e];
      Wal.OthersAppend(old(log.entries), e, c.run);
      Wal.FilterAppend(old(log.entries), [e], c.run);
      assert Wal.FilterRun([e], c.run) == [];
    }

    method DepsSatisfied(v: nat) returns (ok: bool)
      requires Valid() && v < c.g.N()
      ensures ok == Machine.DepsSatisfied(c.g, state, v)
    {
      var ps := c.g.preds[v];
      if |ps| == 0 { return true; }
      if c.g.IsAny(v) {
        ok := AnyExecuted(v);
        return;
      }
      for k := 0 to |ps|
        invariant forall u :: u in ps[..k] ==> u < c.g.N() && state[u].IsTerminalSuccess()
      {
        assert ps[k] in c.g.preds[v];
        assert ps[..k + 1] == ps[..k] + [ps[k]];
        if !state[ps[k]].IsTerminalSuccess() { return false; }
      }
      assert ps[..|ps|] == ps;
      return true;
    }

    method AnyExecuted(v: nat) returns (found: bool)
      requires Valid() && v < c.g.N()
      ensures found == HasExecutedPred(c.g, state, v)
    {
      var ps := c.g.preds[v];
      for k := 0 to |ps|
        invariant forall u :: u in ps[..k] ==> u < c.g.N() && !state[u].Executed?
      {
        assert ps[k] in c.g.preds[v];
        assert ps[..k + 1] == ps[..k] + [ps[k]];
        if state[ps[k]].Executed? { return true; }
      }
      assert ps[..|ps|] == ps;
      return false;
    }

    method InputsFor(v: nat) returns (inputs: map<nat, string>)
      requires Valid() && v < c.g.N()
      ensures inputs == Machine.InputsFor(c.g, Snap(), v)
      ensures inputs.Keys == set u | u in c.g.preds[v] && state[u] == Executed
      ensures forall u :: u in inputs ==> u < c.g.N() && inputs[u] == output[u]
    {
      var ps := c.g.preds[v];
      inputs := map[];
      for k := 0 to |ps|
        invariant forall u :: u in inputs <==> u in ps[..k] && u < c.g.N() && state[u].Executed?
        invariant forall u :: u in inputs ==> u < c.g.N() && inputs[u] == output[u]
      {
        assert ps[k] in c.g.preds[v];
        assert ps[..k + 1] == ps[..k] + [ps[k]];
        if state[ps[k]].Executed? { inputs := inputs[ps[k] := output[ps[k]]]; }
      }
      assert ps[..|ps|] == ps;
    }

    method SeedEntries()
      requires Valid()
      modifies this`state, this`seqNo, this`trace, log
      ensures Valid() && Snap() == SeedFrom(c.g, old(Snap()), 0)
    {
      for i := 0 to c.g.N()
        invariant Valid() && SeedFrom(c.g, Snap(), i) == SeedFrom(c.g, old(Snap()), 0)
      {
        if |c.g.preds[i]| == 0 { Transition(i, Ready, DepsMet, ""); }
      }
    }

    method PromotePending()
      requires Valid()
      modifies this`state, this`seqNo, this`trace, log
      ensures Valid() && Snap() == PromoteFrom(c.g, old(Snap()), 0)
    {
      for i := 0 to c.g.N()
        invariant Valid() && PromoteFrom(c.g, Snap(), i) == PromoteFrom(c.g, old(Snap()), 0)
      {
        if state[i].Pending? {
          var ok := DepsSatisfied(i);
          if ok { Transition(i, Ready, DepsMet, ""); }
        }
      }
    }

    method StillNeeded(v: nat) returns (needed: bool)
      requires Valid() && v < c.g.N()
      ensures needed == Machine.StillNeeded(c.g, state, v)
    {
      var js := c.g.succs[v];
      for k := 0 to |js|
        invariant forall j :: j in js[..k] ==>
          j < c.g.N() && if c.g.IsAny(j) then HasExecutedPred(c.g, state, j) else state[j].IsTerminal()
      {
        assert js[k] in c.g.succs[v];
        assert js[..k + 1] == js[..k] + [js[k]];
        if !c.g.IsAny(js[k]) {
          if !state[js[k]].IsTerminal() { return true; }
        } else {
          var satisfied := AnyExecuted(js[k]);
          if !satisfied { return true; }
        }
      }
      assert js[..|js|] == js;
      return false;
    }

    method SkipLosers(winner: nat)
      requires Valid() && winner < c.g.N()
      modifies this`state, this`seqNo, this`trace, log
      ensures Valid() && Snap() == SkipJoiners(c.g, old(Snap()), winner, 0)
    {
      var js := c.g.succs[winner];
      for k := 0 to |js|
        invariant Valid() && SkipJoiners(c.g, Snap(), winner, k) == SkipJoiners(c.g, old(Snap()), winner, 0)
      {
        assert js[k] in c.g.succs[winner];
        if c.g.IsAny(js[k]) { SkipCandidates(winner, js[k]); }
      }
    }

    method SkipCandidates(winner: nat, j: nat)
      requires Valid() && j < c.g.N()
      modifies this`state, this`seqNo, this`trace, log
      ensures Valid() && Snap() == SkipCands(c.g, old(Snap()), winner, j, 0)
    {
      var ps := c.g.preds[j];
      for k := 0 to |ps|
        invariant Valid() && SkipCands(c.g, Snap(), winner, j, k) == SkipCands(c.g, old(Snap()), winner, j, 0)
      {
        var v := ps[k];
        assert v in c.g.preds[j];
        if v != winner && !state[v].IsTerminal() {
          var needed := StillNeeded(v);
          if !needed { Transition(v, Skipped, Skip, ""); }
        }
      }
    }

    method Dispatch(v: nat)
      requires Valid() && v < c.g.N()
      modifies this`state, this`seqNo, this`trace, this`inFlight, this`workers, this`job, log
      ensures Valid() && Snap() == LaunchOne(c.g, old(Snap()), v)
    {
      var inputs := InputsFor(v);
      Transition(v, Running, Traces.Dispatch, "");
      inFlight := inFlight + 1;
      workers := workers + multiset{v};
      job := job[v := Job(inputs, attempt[v].retries + attempt[v].patches)];
    }

    method Schedule()
      requires Valid()
      modifies this`state, this`seqNo, this`trace, this`inFlight, this`workers, this`job, log
      ensures Valid() && Snap() == Machine.Schedule(c, old(Snap()))
      ensures old(inFlight) >= 0 ==> Dispatching.Scheduled(c, old(Snap()), Snap())
    {
      if inFlight >= 0 { var vs := Dispatching.ScheduleMeaning(c, Snap()); }
      for i := 0 to c.g.N()
        invariant forall v :: 0 <= v < i ==> !(state[v].Running? && c.g.IsDestructive(v))
      {
        if state[i].Running? && c.g.IsDestructive(i) { return; }
      }
      var i := 0;
      while i < c.g.N()
        invariant 0 <= i <= c.g.N() && Valid()
        invariant ScheduleFrom(c, Snap(), i) == ScheduleFrom(c, old(Snap()), 0)
      {
        if inFlight >= c.maxParallel { return; }
        if state[i].Ready? {
          if c.g.IsDestructive(i) {
            if inFlight == 0 {
              Dispatch(i);
              return;
            }
          } else {
            Dispatch(i);
          }
        }
        i := i + 1;
      }
    }

    method ReadyCount() returns (n: nat)
      requires Valid()
      ensures n == Machine.ReadyCount(state) == |ReadyNodes(state, |state|)|
    {
      CountsReady(state, |state|);
      n := 0;
      for i := 0 to |state|
        invariant n == ReadyUpTo(state, i)
      {
        if state[i].Ready? { n := n + 1; }
      }
    }

    method AllTerminal() returns (all: bool)
      requires Valid()
      ensures all == Machine.AllTerminal(state)
    {
      for i := 0 to |state|
        invariant forall v :: 0 <= v < i ==> state[v].IsTerminal()
      {
        if !state[i].IsTerminal() { return false; }
      }
      return true;
    }

    method Observe()
      requires Valid()
      modifies this`rounds, this`maxReady
      ensures Valid() && Snap() == Tick(old(Snap()))
    {
      var n := ReadyCount();
      if n > maxReady { maxReady := n; }
      rounds := rounds + 1;
    }

    /** Turn one completion event into transitions, asking the policy on failure. */
    method ApplyResult(v: nat, r: Result)
      requires Valid() && v < c.g.N()
      modifies this`state, this`seqNo, this`trace, this`attempt, log
      ensures Valid() && Snap() == Machine.ApplyResult(c, old(Snap()), v, r)
    {
      if r.err == None {
        Transition(v, Executed, Success, "");
        return;
      }
      if Classify(r) {
        Transition(v, FailedRetryable, FailRetryable, r.err.value);
      } else {
        Transition(v, FailedRetryable, FailStructural, r.err.value);
      }
      var d := Decide(c.policy, attempt[v], r);
      match d.action
      case Retry =>
        if d.level == LocalPatch {
          attempt := attempt[v := attempt[v].(patches := attempt[v].patches + 1)];
          Transition(v, Ready, Traces.Patch, d.reason);
        } else {
          attempt := attempt[v := attempt[v].(retries := attempt[v].retries + 1)];
          Transition(v, Ready, Traces.Retry, d.reason);
        }
      case Replan =>
        attempt := attempt[v := attempt[v].(replanned := true)];
        Transition(v, Failed, ReplanRequested, d.reason);
      case Fail =>
        Transition(v, Failed, GiveUp, d.reason);
        assert attempt == attempt[v := attempt[v]];
    }

    /** The loop body for a received event. */
    method HandleEvent(e: Event)
      requires Valid() && e.node < c.g.N()
      modifies this, log
      ensures Valid() && Snap() == Handle(c, old(Snap()), e) && foreign == old(foreign)
    {
      var late := state[e.node].IsTerminal();
      Take(e.node);
      if !late {
        Complete(e.node, e.result);
      }
      Observe();
      Schedule();
    }

    method Take(v: nat)
      requires Valid() && v < c.g.N()
      modifies this`inFlight, this`workers
      ensures Valid() && Snap() == Receive(old(Snap()), v)
    {
      inFlight := inFlight - 1;
      workers := workers - multiset{v};
    }

    /** Apply a result and recompute readiness and any_of skips. */
    method Complete(v: nat, r: Result)
      requires Valid() && v < c.g.N()
      modifies this`state, this`seqNo, this`trace, this`attempt, this`output, log
      ensures var s := Machine.ApplyResult(c, old(Snap()), v, r);
        Valid() && Snap() ==
          Settle(c.g, if s.state[v].Executed? then s.(output := s.output[v := r.output]) else s, v)
    {
      ApplyResult(v, r);
      if state[v].Executed? {
        output := output[v := r.output];
        SkipLosers(v);
      }
      PromotePending();
    }

    /** The top of the loop: whether to wait for an event. */
    method Head() returns (wait: bool)
      requires Valid()
      modifies this`state, this`seqNo, this`trace, this`inFlight, this`workers, this`job, log
      ensures Valid() && Snap() == Poll(c, old(Snap())).s && wait == Poll(c, old(Snap())).Wait?
    {
      var all := AllTerminal();
      if all { return false; }
      if inFlight == 0 {
        var n := ReadyCount();
        if n == 0 { return false; }
        Schedule();
        if inFlight == 0 { return false; }
      }
      return true;
    }

    /** The event loop, for the events that arrive: whether it then waits for another one. */
    method Play(evs: seq<Event>, ghost ss: seq<St>) returns (wait: bool)
      requires Valid() && Checked(c) && Trajectory(c, evs, ss) && Snap() == Start(c)
      modifies this, log
      ensures Valid() && Snap() == ss[|evs|] && wait == Poll(c, ss[|evs|]).Wait? && foreign == old(foreign)
    {
      hide Start, Handle, Poll, Checked, Trajectory;
      StartsAt(c, evs, ss);
      var i := 0;
      while true
        invariant 0 <= i <= |evs| && Valid() && Snap() == ss[i] && foreign == old(foreign)
        decreases |evs| - i
      {
        HeadOf(c, evs, ss, i);
        wait := Head();
        if !wait || i == |evs| { break; }
        HandleEvent(evs[i]);
        i := i + 1;
      }
    }

    /** After cancellation: receive events until no worker is left. `vs` is the order in which
        the workers report. */
    method DrainAll(vs: seq<nat>)
      requires Valid() && inFlight == |vs| && forall i :: 0 <= i < |vs| ==> vs[i] < c.g.N()
      modifies this`state, this`seqNo, this`trace, this`inFlight, this`workers, log
      ensures Valid() && Snap() == Drain(c.g, old(Snap()), vs)
    {
      ghost var s0 := Snap();
      hide Drain, DrainOne, WellFormed, Logged;
      DrainUpTo(c.g, s0, vs, 0);
      var k := 0;
      while inFlight > 0
        invariant Valid() && 0 <= k <= |vs| && inFlight == |vs| - k
        invariant Snap() == Drain(c.g, s0, vs[..k])
      {
        DrainUpTo(c.g, s0, vs, k);
        DrainNext(vs[k]);
        k := k + 1;
      }
      DrainUpTo(c.g, s0, vs, k);
    }

    method DrainNext(v: nat)
      requires Valid() && v < c.g.N()
      modifies this`state, this`seqNo, this`trace, this`inFlight, this`workers, log
      ensures Valid() && Snap() == DrainOne(c.g, old(Snap()), v) && inFlight == old(inFlight) - 1
    {
      Take(v);
      if !state[v].IsTerminal() { Transition(v, Cancelled, Cancel, ""); }
    }

    /** What a cancellation does: wait for the workers, then report. */
    method Abort(vs: seq<nat>) returns (o: Outcome)
      requires Valid() && inFlight == |vs| && forall i :: 0 <= i < |vs| ==> vs[i] < c.g.N()
      modifies this`state, this`seqNo, this`trace, this`inFlight, this`workers, log
      ensures Valid() && Snap() == Drain(c.g, old(Snap()), vs) && o == Finalize(c.g, Snap())
    {
      DrainAll(vs);
      o := Finish();
    }

    method Finish() returns (o: Outcome)
      requires Valid()
      ensures o == Finalize(c.g, Snap())
      ensures Tells(c.g, state, o) && o.rounds == rounds && o.maxReady == maxReady
    {
      FinalTells(c.g, Snap());
      var final: map<string, NodeState> := map[];
      var succeeded := true;
      for i := 0 to c.g.N()
        invariant final == FinalUpTo(c.g, state, i)
        invariant succeeded <==>
          forall v :: 0 <= v < i ==> state[v].IsTerminal() && !state[v].Failed? && !state[v].Cancelled?
      {
        final := final[c.g.nodes[i].id := state[i]];
        if !state[i].IsTerminal() { succeeded := false; }
        if state[i].Failed? || state[i].Cancelled? { succeeded := false; }
      }
      o := Outcome(final, rounds, maxReady, succeeded);
    }
  }

  /** At the loop head nothing changes, and until the last event the loop waits. */
  lemma HeadOf(c: Config, evs: seq<Event>, ss: seq<St>, i: nat)
    requires Checked(c) && Trajectory(c, evs, ss) && i <= |evs|
    ensures Shape(c.g, ss[i]) && Poll(c, ss[i]).s == ss[i]
    ensures i < |evs| ==> Poll(c, ss[i]).Wait? && evs[i].node < c.g.N() && ss[i + 1] == Handle(c, ss[i], evs[i])
  {
    TrajectoryAtHead(c, evs, ss, i);
    PollIsQuiet(c, ss[i]);
    assert i < |evs| ==> PassAt(c, evs, ss, i);
    hide Poll, Handle, AtHead, Start;
  }

  lemma StartsAt(c: Config, evs: seq<Event>, ss: seq<St>)
    requires WellFormed(c.g) && Trajectory(c, evs, ss)
    ensures |ss| == |evs| + 1 && ss[0] == Start(c)
  {
  }

  lemma DrainUpTo(g: Graph, s: St, vs: seq<nat>, k: nat)
    requires Shape(g, s) && k <= |vs| && forall i :: 0 <= i < |vs| ==> vs[i] < g.N()
    ensures k == 0 ==> Drain(g, s, vs[..k]) == s
    ensures k < |vs| ==> Drain(g, s, vs[..k + 1]) == DrainOne(g, Drain(g, s, vs[..k]), vs[k])
    ensures k == |vs| ==> vs[..k] == vs
  {
    hide DrainOne;
    if k < |vs| { assert vs[..k + 1][..k] == vs[..k]; }
  }

  lemma RenderAppend(g: Graph, run: string, t: seq<Move>, m: Move)
    requires (forall k :: 0 <= k < |t| ==> t[k].node < g.N()) && m.node < g.N()
    ensures Render(g, run, t + [m]) == Render(g, run, t) + [RenderMove(g, run, |t|, m)]
  {
  }

  // ---- Run --------------------------------------------------------------------------------------

  /** What the environment does: the completion events in the order they are received, then
      either nothing more, or a cancellation followed by the draining events. */
  datatype Script = Script(events: seq<Event>, cancelled: bool, drained: seq<nat>)

  datatype Report =
    | InvalidPlan(error: PlanError)
    | FailedCheck(first: Validate.Problem)
    | Done(outcome: Outcome)
    | Aborted(outcome: Outcome)
    | Blocked

  ghost predicate Accepted(p: Plan, jsonValid: string -> bool) {
    BasicValid(p) && (GraphOfWellFormed(p); Validate.CheckSpec(GraphOf(p), jsonValid) == [])
  }

  /** The options as the loop sees them: without a positive limit, as wide as the plan. */
  function ConfigOf(p: Plan, maxParallel: int, policy: Policy, run: string): (c: Config)
    requires BasicValid(p)
    ensures c.g.nodes == p.nodes && c.policy == policy && c.run == run
    ensures maxParallel > 0 ==> c.maxParallel == maxParallel
    ensures maxParallel <= 0 ==> c.maxParallel == c.g.N()
  {
    Config(GraphOf(p), if maxParallel <= 0 then |p.nodes| else maxParallel, policy, run)
  }

  /** An accepted plan satisfies everything the theorems about runs ask for. */
  lemma AcceptedIsChecked(p: Plan, jsonValid: string -> bool, maxParallel: int, policy: Policy, run: string)
    requires Accepted(p, jsonValid)
    ensures Checked(ConfigOf(p, maxParallel, policy, run)) && Acyclic(GraphOf(p))
  {
    var g := GraphOf(p);
    GraphOfWellFormed(p);
    Validate.CheckSilentIff(g, jsonValid);
    forall v, j | 0 <= v < g.N() && 0 <= j < g.N() && v in g.preds[j]
      ensures !(g.IsDestructive(v) && g.IsAny(j))
    {
      assert Validate.NodeChecksPass(g, jsonValid, v);
    }
  }

  /** The script is one the environment can play: events come from outstanding workers while the
      loop waits, and a drain reports every worker that is left. */
  ghost predicate Playable(c: Config, script: Script)
    requires WellFormed(c.g)
  {
    && Feasible(c, script.events)
    && (script.cancelled ==>
          var s := After(c, script.events);
          DrainFeasible(c.g, s, script.drained) && Drain(c.g, s, script.drained).inFlight == 0)
  }

  lemma DrainInPlan(g: Graph, s: St, vs: seq<nat>)
    requires Shape(g, s) && DrainFeasible(g, s, vs)
    ensures forall i :: 0 <= i < |vs| ==> vs[i] < g.N()
  {
  }

  lemma {:induction false} DrainCounts(g: Graph, s: St, vs: seq<nat>)
    requires Shape(g, s) && forall i :: 0 <= i < |vs| ==> vs[i] < g.N()
    ensures Drain(g, s, vs).inFlight == s.inFlight - |vs|
  {
    if |vs| > 0 { DrainCounts(g, s, vs[..|vs| - 1]); }
  }

  /** The log has the rendered trace of s appended to this run's entries, and no others. */
  ghost predicate LogIs(c: Config, s: St, before: seq<Wal.Entry>, entries: seq<Wal.Entry>) {
    && (forall k :: 0 <= k < |s.trace| ==> s.trace[k].node < c.g.N())
    && Wal.FilterRun(entries, c.run) == Wal.FilterRun(before, c.run) + Render(c.g, c.run, s.trace)
    && Wal.OtherRuns(entries, c.run) == Wal.OtherRuns(before, c.run)
  }

  /** A run id that was used before spoils replay: it gives the run's trace exactly if it was fresh. */
  lemma FreshIdIff(c: Config, s: St, before: seq<Wal.Entry>, entries: seq<Wal.Entry>)
    requires LogIs(c, s, before, entries)
    ensures Wal.Replayed(entries, c.run) == Render(c.g, c.run, s.trace) <==> Wal.FilterRun(before, c.run) == []
  {
    var es := Wal.FilterRun(entries, c.run);
    Wal.StableSortCorrect(es, 0);
    assert |multiset(es)| == |es| && |multiset(Wal.StableSort(es))| == |Wal.StableSort(es)|;
    RenderedRun(c.g, c.run, s.trace);
    assert [] + Render(c.g, c.run, s.trace) == Render(c.g, c.run, s.trace);
  }

  /** The report says what the run's state says, and the log holds the trace of that state. */
  ghost predicate Reports(c: Config, script: Script, r: Report, before: seq<Wal.Entry>, entries: seq<Wal.Entry>)
    requires WellFormed(c.g) && Playable(c, script)
  {
    var s := After(c, script.events);
    match r
    case Done(o) => Poll(c, s).Stop? && o == Finalize(c.g, s) && LogIs(c, s, before, entries)
    case Aborted(o) =>
      script.cancelled && var t := Drain(c.g, s, script.drained);
      Poll(c, s).Wait? && o == Finalize(c.g, t) && LogIs(c, t, before, entries)
    case Blocked() => !script.cancelled && Poll(c, s).Wait? && LogIs(c, s, before, entries)
    case _ => false
  }

  /** The part of `Run` after the checks: start, the event loop, and what a cancellation does. */
  method RunChecked(c: Config, log: Wal.MemLog, script: Script) returns (r: Report)
    requires Checked(c) && Playable(c, script)
    modifies log
    ensures Reports(c, script, r, old(log.entries), log.entries)
  {
    hide After, Start, Poll, Drain, Finalize, Trajectory, Feasible, DrainFeasible, Wal.FilterRun, Wal.OtherRuns, Render;
    var loop := new Loop(c, log);
    loop.Begin();
    ghost var ss := TrajectoryOf(c, script.events);
    hide Checked;
    var wait := loop.Play(script.events, ss);
    if !wait {
      var o := loop.Finish();
      return Done(o);
    }
    if !script.cancelled { return Report.Blocked; }
    DrainInPlan(c.g, loop.Snap(), script.drained);
    DrainCounts(c.g, loop.Snap(), script.drained);
    var o := loop.Abort(script.drained);
    return Aborted(o);
  }

  /** Whatever the workers returned and in which order, an accepted plan's report is sound. */
  lemma ReportMeaning(p: Plan, jsonValid: string -> bool, maxParallel: int, policy: Policy, run: string,
                      evs: seq<Event>)
    requires Accepted(p, jsonValid)
    requires (AcceptedIsChecked(p, jsonValid, maxParallel, policy, run);
              Returned(ConfigOf(p, maxParallel, policy, run), evs))
    ensures (AcceptedIsChecked(p, jsonValid, maxParallel, policy, run);
             var c := ConfigOf(p, maxParallel, policy, run);
             SoundReport(c, evs, Finalize(c.g, After(c, evs))))
  {
    var c := ConfigOf(p, maxParallel, policy, run);
    AcceptedIsChecked(p, jsonValid, maxParallel, policy, run);
    hide Accepted, ConfigOf, SoundReport, Returned, After, Checked;
    ReturnedReport(c, evs);
  }

  /** The whole of `Run`: the first fault, else the first problem, else the run the environment plays,
      which grows the log under its own id only; a report tells the final states, the rounds and the
      peak, and a cancelled run does not claim success. */
  method Run(p: Plan, jsonValid: string -> bool, maxParallel: int, policy: Policy, run: string,
             log: Wal.MemLog, script: Script)
    returns (r: Report)
    requires Accepted(p, jsonValid) ==>
      (AcceptedIsChecked(p, jsonValid, maxParallel, policy, run);
       Playable(ConfigOf(p, maxParallel, policy, run), script))
    modifies log
    ensures r.InvalidPlan? <==> !BasicValid(p)
    ensures r.InvalidPlan? ==> IsFirstFault(p, r.error)
    ensures r.FailedCheck? <==> BasicValid(p) && !Accepted(p, jsonValid)
    ensures BasicValid(p) ==>
      (GraphOfWellFormed(p); r.FailedCheck? <==> exists q :: Validate.IsProblem(GraphOf(p), jsonValid, q))
    ensures r.FailedCheck? ==>
      (GraphOfWellFormed(p); Validate.IsFirstProblem(GraphOf(p), jsonValid, r.first))
    ensures r.InvalidPlan? || r.FailedCheck? ==> log.entries == old(log.entries)
    ensures Accepted(p, jsonValid) ==>
      (AcceptedIsChecked(p, jsonValid, maxParallel, policy, run);
       var c := ConfigOf(p, maxParallel, policy, run);
       && Reports(c, script, r, old(log.entries), log.entries)
       && (r.Done? ==> SoundReport(c, script.events, r.outcome))
       && (r.Aborted? ==> AbortReport(c, script.events, r.outcome)))
  {
    var fault := BasicValidate(p);
    if fault.Some? { return InvalidPlan(fault.value); }
    var g := BuildAdjacency(p);
    var problems := Validate.Check(g, jsonValid);
    Validate.FirstOfAll(g, jsonValid, problems);
    if |problems| > 0 { return FailedCheck(problems[0]); }
    var c := ConfigOf(p, maxParallel, policy, run);
    AcceptedIsChecked(p, jsonValid, maxParallel, policy, run);
    r := RunChecked(c, log, script);
    ReportsSound(c, script, r, old(log.entries), log.entries);
  }

  lemma ReportsSound(c: Config, script: Script, r: Report, before: seq<Wal.Entry>, entries: seq<Wal.Entry>)
    requires Checked(c) && Acyclic(c.g) && Playable(c, script) && Reports(c, script, r, before, entries)
    ensures r.Done? ==> SoundReport(c, script.events, r.outcome)
    ensures r.Aborted? ==> AbortReport(c, script.events, r.outcome)
  {
    hide SoundReport, AbortReport, After, Drain, LogIs, Feasible, DrainFeasible, Finalize, Poll, Checked, Acyclic;
    if r.Done? { ReturnedReport(c, script.events); }
    if r.Aborted? { CancelledReport(c, script.events, script.drained); }
  }
}
