/** The scheduler's event loop (engine/scheduler/scheduler.go) as functions on its state.
    Class `Scheduler.Loop` runs the loops and is proved equal to these functions; the
    theorems are about them. */
module Machine {
  import opened Plans
  import opened Graphs
  import opened Recovery
  import opened Traces

  datatype Config = Config(g: Graph, maxParallel: int, policy: Policy, run: string)

  /** What a worker was started with: its inputs by predecessor, and how often the node had
      been dispatched before. */
  datatype Job = Job(inputs: map<nat, string>, tries: nat)

  /** The loop's state, one slot per node. `workers` and `job` describe the goroutines started
      whose event has not been received; `trace` is what has been logged. */
  datatype St = St(state: seq<NodeState>, attempt: seq<Attempt>, output: seq<string>,
                   inFlight: int, workers: multiset<nat>, job: seq<Job>,
                   trace: seq<Move>, rounds: nat, maxReady: nat)

  ghost predicate Shape(g: Graph, s: St) {
    |s.state| == |s.attempt| == |s.output| == |s.job| == g.N()
  }

  function Blank(g: Graph): St {
    St(seq(g.N(), _ => Pending), seq(g.N(), _ => FRESH), seq(g.N(), _ => ""),
       0, multiset{}, seq(g.N(), _ => Job(map[], 0)), [], 0, 0)
  }

  /** The single point through which every state change goes. */
  function Transition(g: Graph, s: St, v: nat, to: NodeState, trigger: Trigger, payload: string): (r: St)
    requires Shape(g, s) && v < g.N()
    ensures Shape(g, r)
  {
    s.(state := s.state[v := to], trace := s.trace + [Move(v, s.state[v], to, trigger, payload)])
  }

  // ---- readiness ---------------------------------------------------------------------

  predicate HasExecutedPred(g: Graph, st: seq<NodeState>, v: nat)
    requires WellFormed(g) && |st| == g.N() && v < g.N()
  {
    exists u :: u in g.preds[v] && st[u].Executed?
  }

  predicate AllPredsSucceeded(g: Graph, st: seq<NodeState>, v: nat)
    requires WellFormed(g) && |st| == g.N() && v < g.N()
  {
    forall u :: u in g.preds[v] ==> st[u].IsTerminalSuccess()
  }

  predicate DepsSatisfied(g: Graph, st: seq<NodeState>, v: nat)
    requires WellFormed(g) && |st| == g.N() && v < g.N()
  {
    if g.preds[v] == [] then true
    else if g.IsAny(v) then HasExecutedPred(g, st, v)
    else AllPredsSucceeded(g, st, v)
  }

  function InputsFor(g: Graph, s: St, v: nat): map<nat, string>
    requires WellFormed(g) && Shape(g, s) && v < g.N()
  {
    map u | u in g.preds[v] && s.state[u].Executed? :: s.output[u]
  }

  function PromoteOne(g: Graph, s: St, v: nat): (r: St)
    requires Shape(g, s) && v < g.N()
    ensures Shape(g, r)
  {
    Transition(g, s, v, Ready, DepsMet, "")
  }

  function PromoteFrom(g: Graph, s: St, i: nat): (r: St)
    requires WellFormed(g) && Shape(g, s) && i <= g.N()
    ensures Shape(g, r)
    ensures r.rounds == s.rounds && r.maxReady == s.maxReady
    decreases g.N() - i
  {
    if i == g.N() then s
    else if s.state[i].Pending? && DepsSatisfied(g, s.state, i) then PromoteFrom(g, PromoteOne(g, s, i), i + 1)
    else PromoteFrom(g, s, i + 1)
  }

  /** The entry nodes start ready. */
  function SeedFrom(g: Graph, s: St, i: nat): (r: St)
    requires WellFormed(g) && Shape(g, s) && i <= g.N()
    ensures Shape(g, r)
    ensures r.rounds == s.rounds && r.maxReady == s.maxReady
    decreases g.N() - i
  {
    if i == g.N() then s
    else SeedFrom(g, if g.preds[i] == [] then PromoteOne(g, s, i) else s, i + 1)
  }

  // ---- any_of losers -------------------------------------------------------------------

  predicate StillNeeded(g: Graph, st: seq<NodeState>, v: nat)
    requires WellFormed(g) && |st| == g.N() && v < g.N()
  {
    exists j :: j in g.succs[v] && if g.IsAny(j) then !HasExecutedPred(g, st, j) else !st[j].IsTerminal()
  }

  function SkipOne(g: Graph, s: St, v: nat): (r: St)
    requires Shape(g, s) && v < g.N()
    ensures Shape(g, r)
  {
    Transition(g, s, v, Skipped, Skip, "")
  }

  predicate IsLoser(g: Graph, st: seq<NodeState>, v: nat, winner: nat)
    requires WellFormed(g) && |st| == g.N() && v < g.N()
  {
    v != winner && !st[v].IsTerminal() && !StillNeeded(g, st, v)
  }

  function SkipCands(g: Graph, s: St, winner: nat, j: nat, k: nat): (r: St)
    requires WellFormed(g) && Shape(g, s) && j < g.N() && k <= |g.preds[j]|
    ensures Shape(g, r)
    ensures r.rounds == s.rounds && r.maxReady == s.maxReady
    decreases |g.preds[j]| - k
  {
    if k == |g.preds[j]| then s
    else
      var v := g.preds[j][k];
      assert v in g.preds[j];
      SkipCands(g, if IsLoser(g, s.state, v, winner) then SkipOne(g, s, v) else s, winner, j, k + 1)
  }

  function SkipJoiners(g: Graph, s: St, winner: nat, k: nat): (r: St)
    requires WellFormed(g) && Shape(g, s) && winner < g.N() && k <= |g.succs[winner]|
    ensures Shape(g, r)
    ensures r.rounds == s.rounds && r.maxReady == s.maxReady
    decreases |g.succs[winner]| - k
  {
    if k == |g.succs[winner]| then s
    else
      var j := g.succs[winner][k];
      assert j in g.succs[winner];
      SkipJoiners(g, if g.IsAny(j) then SkipCands(g, s, winner, j, 0) else s, winner, k + 1)
  }

  // ---- dispatch --------------------------------------------------------------------------

  function LaunchOne(g: Graph, s: St, v: nat): (r: St)
    requires WellFormed(g) && Shape(g, s) && v < g.N()
    ensures Shape(g, r)
  {
    var job := Job(InputsFor(g, s, v), s.attempt[v].retries + s.attempt[v].patches);
    Transition(g, s, v, Running, Dispatch, "").(
      inFlight := s.inFlight + 1, workers := s.workers + multiset{v}, job := s.job[v := job])
  }

  predicate DestructiveRunning(g: Graph, st: seq<NodeState>)
    requires |st| == g.N()
  {
    exists v :: 0 <= v < g.N() && st[v].Running? && g.IsDestructive(v)
  }

  function ScheduleFrom(c: Config, s: St, i: nat): (r: St)
    requires WellFormed(c.g) && Shape(c.g, s) && i <= c.g.N()
    ensures Shape(c.g, r)
    ensures r.rounds == s.rounds && r.maxReady == s.maxReady
    decreases c.g.N() - i
  {
    if i == c.g.N() || s.inFlight >= c.maxParallel then s
    else if !s.state[i].Ready? then ScheduleFrom(c, s, i + 1)
    else if c.g.IsDestructive(i) then
      if s.inFlight == 0 then LaunchOne(c.g, s, i) else ScheduleFrom(c, s, i + 1)
    else ScheduleFrom(c, LaunchOne(c.g, s, i), i + 1)
  }

  function Schedule(c: Config, s: St): (r: St)
    requires WellFormed(c.g) && Shape(c.g, s)
    ensures Shape(c.g, r)
    ensures r.rounds == s.rounds && r.maxReady == s.maxReady
  {
    if DestructiveRunning(c.g, s.state) then s else ScheduleFrom(c, s, 0)
  }

  function ReadyUpTo(st: seq<NodeState>, i: nat): nat
    requires i <= |st|
  {
    if i == 0 then 0 else ReadyUpTo(st, i - 1) + if st[i - 1].Ready? then 1 else 0
  }

  function ReadyCount(st: seq<NodeState>): nat {
    ReadyUpTo(st, |st|)
  }

  ghost function ReadyNodes(st: seq<NodeState>, i: nat): set<nat>
    requires i <= |st|
  {
    set v: nat | v < i && st[v].Ready?
  }

  lemma {:induction false} CountsReady(st: seq<NodeState>, i: nat)
    requires i <= |st|
    ensures ReadyUpTo(st, i) == |ReadyNodes(st, i)|
  {
    if i > 0 {
      CountsReady(st, i - 1);
      assert ReadyNodes(st, i) == ReadyNodes(st, i - 1) + if st[i - 1].Ready? then {i - 1} else {};
    }
  }

  predicate AllTerminal(st: seq<NodeState>) {
    forall v :: 0 <= v < |st| ==> st[v].IsTerminal()
  }

  /** `observe` and the round counter, which the code always updates together. */
  function Tick(s: St): St {
    var r := ReadyCount(s.state);
    s.(rounds := s.rounds + 1, maxReady := if r > s.maxReady then r else s.maxReady)
  }

  function Start(c: Config): (r: St)
    requires WellFormed(c.g)
    ensures Shape(c.g, r)
  {
    Schedule(c, Tick(SeedFrom(c.g, Blank(c.g), 0)))
  }

  // ---- completion events -------------------------------------------------------------------

  datatype Event = Event(node: nat, result: Result)

  function FailTrigger(r: Result): Trigger {
    if Classify(r) then FailRetryable else FailStructural
  }

  /** What `applyResult` does after the failure is logged: carry out the policy's decision. */
  function CarryOut(c: Config, s: St, v: nat, d: Decision): (r: St)
    requires Shape(c.g, s) && v < c.g.N()
    ensures Shape(c.g, r)
  {
    var s' := s.(attempt := s.attempt[v := Spend(s.attempt[v], d)]);
    match d.action
    case Retry =>
      Transition(c.g, s', v, Ready, if d.level == LocalPatch then Traces.Patch else Traces.Retry, d.reason)
    case Replan => Transition(c.g, s', v, Failed, ReplanRequested, d.reason)
    case Fail => Transition(c.g, s', v, Failed, GiveUp, d.reason)
  }

  function ApplyResult(c: Config, s: St, v: nat, r: Result): (t: St)
    requires Shape(c.g, s) && v < c.g.N()
    ensures Shape(c.g, t)
  {
    if r.err == None then Transition(c.g, s, v, Executed, Success, "")
    else
      CarryOut(c, Transition(c.g, s, v, FailedRetryable, FailTrigger(r), r.err.value), v,
               Decide(c.policy, s.attempt[v], r))
  }

  /** The event is taken off the channel. */
  function Receive(s: St, v: nat): St {
    s.(inFlight := s.inFlight - 1, workers := s.workers - multiset{v})
  }

  /** A received event of a node that is still running: its result, and its output if it succeeded. */
  function Absorb(c: Config, s: St, v: nat, r: Result): (t: St)
    requires Shape(c.g, s) && v < c.g.N()
    ensures Shape(c.g, t)
  {
    var s1 := ApplyResult(c, Receive(s, v), v, r);
    if s1.state[v].Executed? then s1.(output := s1.output[v := r.output]) else s1
  }

  function SuccessMove(v: nat): Move {
    Move(v, Running, Executed, Success, "")
  }

  function FailMove(v: nat, r: Result): Move
    requires r.err.Some?
  {
    Move(v, Running, FailedRetryable, FailTrigger(r), r.err.value)
  }

  function DecisionMove(v: nat, d: Decision): Move {
    match d.action
    case Retry =>
      Move(v, FailedRetryable, Ready, if d.level == LocalPatch then Traces.Patch else Traces.Retry, d.reason)
    case Replan => Move(v, FailedRetryable, Failed, ReplanRequested, d.reason)
    case Fail => Move(v, FailedRetryable, Failed, GiveUp, d.reason)
  }

  /** Absorbing a result logs one move on success, and the failure and the decision otherwise. */
  lemma AbsorbTrace(c: Config, s: St, v: nat, r: Result)
    requires Shape(c.g, s) && v < c.g.N() && s.state[v].Running?
    ensures Absorb(c, s, v, r).trace ==
      if r.err == None then s.trace + [SuccessMove(v)]
      else s.trace + [FailMove(v, r)] + [DecisionMove(v, Decide(c.policy, s.attempt[v], r))]
  {
    hide Decide, Spend;
  }

  /** After the result: skip losers if the node succeeded, then promote. */
  function Settle(g: Graph, s: St, v: nat): (r: St)
    requires WellFormed(g) && Shape(g, s) && v < g.N()
    ensures Shape(g, r)
    ensures r.rounds == s.rounds && r.maxReady == s.maxReady
  {
    PromoteFrom(g, if s.state[v].Executed? then SkipJoiners(g, s, v, 0) else s, 0)
  }

  /** The state in which the round of a received event counts the ready nodes, before it dispatches. */
  function Observed(c: Config, s: St, e: Event): (r: St)
    requires WellFormed(c.g) && Shape(c.g, s) && e.node < c.g.N()
    ensures Shape(c.g, r)
  {
    if s.state[e.node].IsTerminal() then Receive(s, e.node)
    else Settle(c.g, Absorb(c, s, e.node, e.result), e.node)
  }

  /** One pass of the loop body for a received event. */
  function Handle(c: Config, s: St, e: Event): (r: St)
    requires WellFormed(c.g) && Shape(c.g, s) && e.node < c.g.N()
    ensures Shape(c.g, r)
  {
    Schedule(c, Tick(Observed(c, s, e)))
  }

  // ---- the loop head, cancellation, the outcome ----------------------------------------------

  datatype Head = Stop(s: St) | Wait(s: St)

  /** The top of the loop: leave, or wait for an event (after one more try to dispatch). */
  function Poll(c: Config, s: St): (h: Head)
    requires WellFormed(c.g) && Shape(c.g, s)
    ensures Shape(c.g, h.s)
  {
    if AllTerminal(s.state) then Stop(s)
    else if s.inFlight != 0 then Wait(s)
    else if ReadyCount(s.state) == 0 then Stop(s)
    else
      var s' := Schedule(c, s);
      if s'.inFlight == 0 then Stop(s') else Wait(s')
  }

  /** One event received after cancellation: its result is dropped. */
  function DrainOne(g: Graph, s: St, v: nat): (r: St)
    requires Shape(g, s) && v < g.N()
    ensures Shape(g, r)
  {
    var s1 := Receive(s, v);
    if s1.state[v].IsTerminal() then s1 else Transition(g, s1, v, Cancelled, Cancel, "")
  }

  function Drain(g: Graph, s: St, vs: seq<nat>): (r: St)
    requires Shape(g, s) && forall i :: 0 <= i < |vs| ==> vs[i] < g.N()
    ensures Shape(g, r)
  {
    if |vs| == 0 then s else DrainOne(g, Drain(g, s, vs[..|vs| - 1]), vs[|vs| - 1])
  }

  predicate Succeeded(st: seq<NodeState>) {
    forall v :: 0 <= v < |st| ==> st[v].IsTerminal() && !st[v].Failed? && !st[v].Cancelled?
  }

  datatype Outcome = Outcome(final: map<string, NodeState>, rounds: nat, maxReady: nat, succeeded: bool)

  function FinalUpTo(g: Graph, st: seq<NodeState>, i: nat): map<string, NodeState>
    requires i <= g.N() == |st|
  {
    if i == 0 then map[] else FinalUpTo(g, st, i - 1)[g.nodes[i - 1].id := st[i - 1]]
  }

  function Finalize(g: Graph, s: St): Outcome
    requires Shape(g, s)
  {
    Outcome(FinalUpTo(g, s.state, g.N()), s.rounds, s.maxReady, Succeeded(s.state))
  }

  /** The reported map has one entry per node: its state. */
  lemma {:induction false} FinalMeaning(g: Graph, st: seq<NodeState>, i: nat)
    requires i <= g.N() == |st| && UniqueIds(g.nodes)
    ensures forall v :: 0 <= v < i ==>
      g.nodes[v].id in FinalUpTo(g, st, i) && FinalUpTo(g, st, i)[g.nodes[v].id] == st[v]
    ensures forall id :: id in FinalUpTo(g, st, i) ==> exists v :: 0 <= v < i && g.nodes[v].id == id
  {
    if i > 0 { FinalMeaning(g, st, i - 1); }
  }

  // ---- whole runs -------------------------------------------------------------------------------

  /** The state at the loop head after the given events. */
  function After(c: Config, evs: seq<Event>): (r: St)
    requires WellFormed(c.g) && forall i :: 0 <= i < |evs| ==> evs[i].node < c.g.N()
    ensures Shape(c.g, r)
  {
    if |evs| == 0 then Start(c)
    else Handle(c, Poll(c, After(c, evs[..|evs| - 1])).s, evs[|evs| - 1])
  }

  ghost predicate InPlan(g: Graph, evs: seq<Event>) {
    forall i :: 0 <= i < |evs| ==> evs[i].node < g.N()
  }

  /** The environment's only obligation: an event comes from a worker that is outstanding
      while the loop waits. Which one, and with what result, is open. */
  ghost predicate Feasible(c: Config, evs: seq<Event>)
    requires WellFormed(c.g)
    decreases |evs|
  {
    InPlan(c.g, evs) && (|evs| > 0 ==>
      var init, e := evs[..|evs| - 1], evs[|evs| - 1];
      Feasible(c, init) &&
      var h := Poll(c, After(c, init));
      h.Wait? && e.node in h.s.workers)
  }

  /** An uncancelled run that has returned. */
  ghost predicate Returned(c: Config, evs: seq<Event>)
    requires WellFormed(c.g)
  {
    Feasible(c, evs) && Poll(c, After(c, evs)).Stop?
  }

  /** After cancellation only events of outstanding workers are received. */
  ghost predicate DrainFeasible(g: Graph, s: St, vs: seq<nat>)
    requires Shape(g, s)
    decreases |vs|
  {
    (forall i :: 0 <= i < |vs| ==> vs[i] < g.N()) && (|vs| > 0 ==>
      DrainFeasible(g, s, vs[..|vs| - 1]) && vs[|vs| - 1] in Drain(g, s, vs[..|vs| - 1]).workers)
  }

  /** Every state of the loop between two events, cancelled or not. */
  ghost predicate Reachable(c: Config, s: St)
    requires WellFormed(c.g)
  {
    exists evs, vs ::
      && Feasible(c, evs) && DrainFeasible(c.g, After(c, evs), vs)
      && (vs != [] ==> Poll(c, After(c, evs)).Wait?)
      && s == Drain(c.g, After(c, evs), vs)
  }
}
