/** Schedule independence. For plans whose joins are all all_of, and results that are a function
    of node, inputs and attempt number, the event loop refines evaluating the nodes one at a
    time in `TopoOrder` order: whatever the order of completions and the degree of parallelism. */
module Refinement {
  import opened Plans
  import opened Graphs
  import opened Lists
  import opened Topo
  import opened Recovery
  import opened Traces
  import opened Machine
  import opened Steps
  import opened Invariants
  import opened LoopHead
  import opened Theorems

  // The executor: node, inputs by predecessor, number of earlier dispatches.
  type Executor = (nat, map<nat, string>, nat) -> Result

  // ---- the sequential reference ----------------------------------------------------------

  /** How one node ends: its final state, its output, and the moves it makes. */
  datatype NodeEnd = NodeEnd(state: NodeState, output: string, moves: seq<Move>)

  ghost function Left(p: Policy, a: Attempt): nat {
    (if a.retries < p.RetryCap() then p.RetryCap() - a.retries else 0)
    + (if a.patches < p.PatchCap() then p.PatchCap() - a.patches else 0)
  }

  /** A node that has just been dispatched: run it, and climb the ladder while it fails. */
  ghost function RunDispatched(p: Policy, exec: Executor, v: nat, inputs: map<nat, string>, a: Attempt): NodeEnd
    decreases Left(p, a), 0
  {
    var r := exec(v, inputs, Spent(a));
    if r.err == None then NodeEnd(Executed, r.output, [Move(v, Running, Executed, Success, "")])
    else
      var fail := Move(v, Running, FailedRetryable, FailTrigger(r), r.err.value);
      var d := Decide(p, a, r);
      match d.action
      case Retry =>
        var again := Move(v, FailedRetryable, Ready,
                          if d.level == LocalPatch then Traces.Patch else Traces.Retry, d.reason);
        var rest := RunReady(p, exec, v, inputs, Spend(a, d));
        NodeEnd(rest.state, rest.output, [fail, again] + rest.moves)
      case Replan => NodeEnd(Failed, "", [fail, Move(v, FailedRetryable, Failed, ReplanRequested, d.reason)])
      case Fail => NodeEnd(Failed, "", [fail, Move(v, FailedRetryable, Failed, GiveUp, d.reason)])
  }

  ghost function RunReady(p: Policy, exec: Executor, v: nat, inputs: map<nat, string>, a: Attempt): NodeEnd
    decreases Left(p, a), 1
  {
    var rest := RunDispatched(p, exec, v, inputs, a);
    NodeEnd(rest.state, rest.output, [Move(v, Ready, Running, Dispatch, "")] + rest.moves)
  }

  type Ends = map<nat, NodeEnd>

  ghost predicate InputsReady(g: Graph, ends: Ends, v: nat)
    requires WellFormed(g) && v < g.N()
  {
    forall u :: u in g.preds[v] ==> u in ends && ends[u].state.Executed?
  }

  ghost function InputsOf(g: Graph, ends: Ends, v: nat): map<nat, string>
    requires WellFormed(g) && v < g.N() && InputsReady(g, ends, v)
  {
    map u | u in g.preds[v] :: ends[u].output
  }

  /** One node, given how its predecessors ended: it runs if all of them executed, and stays
      pending otherwise. */
  ghost function EvalNode(c: Config, exec: Executor, ends: Ends, v: nat): NodeEnd
    requires WellFormed(c.g) && v < c.g.N()
  {
    if InputsReady(c.g, ends, v) then
      var run := RunReady(c.policy, exec, v, InputsOf(c.g, ends, v), FRESH);
      NodeEnd(run.state, run.output, [Move(v, Pending, Ready, DepsMet, "")] + run.moves)
    else NodeEnd(Pending, "", [])
  }

  /** Evaluate the nodes of `order` one after the other. */
  ghost function EvalAll(c: Config, exec: Executor, order: seq<nat>): Ends
    requires WellFormed(c.g) && forall i :: 0 <= i < |order| ==> order[i] < c.g.N()
  {
    if |order| == 0 then map[]
    else
      var ends := EvalAll(c, exec, order[..|order| - 1]);
      ends[order[|order| - 1] := EvalNode(c, exec, ends, order[|order| - 1])]
  }

  /** The sequential run of a plan. */
  ghost function Sequential(c: Config, exec: Executor): Ends
    requires WellFormed(c.g)
  {
    TopoPrefix(c.g);
    EvalAll(c, exec, TopoSpec(c.g))
  }

  /** Every node ended as its predecessors' ends determine. */
  ghost predicate Consistent(c: Config, exec: Executor, ends: Ends)
    requires WellFormed(c.g)
  {
    forall v :: 0 <= v < c.g.N() ==> v in ends && ends[v] == EvalNode(c, exec, ends, v)
  }

  // ---- the reference is consistent -----------------------------------------------------------

  lemma SameEval(c: Config, exec: Executor, e1: Ends, e2: Ends, v: nat)
    requires WellFormed(c.g) && v < c.g.N()
    requires forall u :: u in c.g.preds[v] ==> u in e1 && u in e2 && e1[u] == e2[u]
    ensures EvalNode(c, exec, e1, v) == EvalNode(c, exec, e2, v)
  {
    if InputsReady(c.g, e1, v) {
      assert InputsOf(c.g, e1, v) == InputsOf(c.g, e2, v);
    }
  }

  lemma {:induction false} EvalAllConsistent(c: Config, exec: Executor, order: seq<nat>)
    requires WellFormed(c.g) && Ordered(c.g, order)
    ensures forall v :: v in EvalAll(c, exec, order) <==> v in order
    ensures forall v :: v in order ==>
      v < c.g.N() && EvalAll(c, exec, order)[v] == EvalNode(c, exec, EvalAll(c, exec, order), v)
    decreases |order|
  {
    if |order| > 0 {
      var init, x := order[..|order| - 1], order[|order| - 1];
      OrderedPrefix(c.g, order, |order| - 1);
      EvalAllConsistent(c, exec, init);
      SplitLast(order);
      hide EvalNode, EvalAll;
      EvalOneMore(c, exec, init, x);
    }
  }

  lemma EvalOneMore(c: Config, exec: Executor, init: seq<nat>, x: nat)
    requires WellFormed(c.g) && Ordered(c.g, init + [x])
    requires forall i :: 0 <= i < |init| ==> init[i] < c.g.N()
    requires var ends := EvalAll(c, exec, init);
      && (forall v :: v in ends <==> v in init)
      && (forall v :: v in init ==> v < c.g.N() && ends[v] == EvalNode(c, exec, ends, v))
    ensures var ends := EvalAll(c, exec, init + [x]);
      && (forall v :: v in ends <==> v in init + [x])
      && (forall v :: v in init + [x] ==> v < c.g.N() && ends[v] == EvalNode(c, exec, ends, v))
  {
    hide EvalNode;
    var order := init + [x];
    assert order[..|init|] == init;
    var e1, e2 := EvalAll(c, exec, init), EvalAll(c, exec, order);
    assert order[|init|] == x && e2 == e1[x := EvalNode(c, exec, e1, x)];
    FreshLast(c.g, init, x);
    forall v | v in order
      ensures v < c.g.N() && e2[v] == EvalNode(c, exec, e2, v)
    {
      SameEval(c, exec, e1, e2, v);
    }
  }

  lemma FreshLast(g: Graph, init: seq<nat>, x: nat)
    requires WellFormed(g) && Ordered(g, init + [x])
    ensures x !in init && x < g.N()
    ensures forall v, u :: v in init + [x] && v < g.N() && u in g.preds[v] ==> u in init
  {
    var order := init + [x];
    assert order[|init|] == x;
    assert forall i :: 0 <= i < |init| ==> order[i] == init[i];
    forall v, u | v in order && v < g.N() && u in g.preds[v]
      ensures u in init
    {
      var i :| 0 <= i < |order| && order[i] == v;
      assert u in order[..i];
    }
  }

  lemma SequentialConsistent(c: Config, exec: Executor)
    requires WellFormed(c.g) && Acyclic(c.g)
    ensures Consistent(c, exec, Sequential(c, exec))
  {
    TopoPrefix(c.g);
    TopoCompleteIffAcyclic(c.g);
    EvalAllConsistent(c, exec, TopoSpec(c.g));
    DistinctIsShort(TopoSpec(c.g), c.g.N());
  }

  // ---- the loop agrees with it ------------------------------------------------------------------

  /** What is left to happen to node v, given its state, is what the reference still has for it. */
  ghost predicate AgreesAt(c: Config, exec: Executor, ends: Ends, s: St, v: nat)
    requires WellFormed(c.g) && Shape(c.g, s) && v < c.g.N() && v in ends
  {
    var done := Proj(s.trace, v);
    match s.state[v]
    case Pending => done == [] && s.output[v] == "" && s.attempt[v] == FRESH
    case Ready =>
      s.output[v] == "" && InputsReady(c.g, ends, v) &&
      var rest := RunReady(c.policy, exec, v, InputsOf(c.g, ends, v), s.attempt[v]);
      ends[v] == NodeEnd(rest.state, rest.output, done + rest.moves)
    case Running =>
      s.output[v] == "" && InputsReady(c.g, ends, v) && s.job[v] == Job(InputsOf(c.g, ends, v), Spent(s.attempt[v])) &&
      var rest := RunDispatched(c.policy, exec, v, InputsOf(c.g, ends, v), s.attempt[v]);
      ends[v] == NodeEnd(rest.state, rest.output, done + rest.moves)
    case Executed => ends[v] == NodeEnd(Executed, s.output[v], done)
    case Failed => ends[v] == NodeEnd(Failed, "", done) && s.output[v] == ""
    case _ => false
  }

  ghost predicate Agrees(c: Config, exec: Executor, ends: Ends, s: St)
    requires WellFormed(c.g) && Shape(c.g, s)
  {
    forall v :: 0 <= v < c.g.N() ==> v in ends && AgreesAt(c, exec, ends, s, v)
  }

  lemma AgreesElsewhere(c: Config, exec: Executor, ends: Ends, s: St, t: St, m: Move, v: nat)
    requires WellFormed(c.g) && Shape(c.g, s) && Shape(c.g, t) && v < c.g.N() && v in ends
    requires AgreesAt(c, exec, ends, s, v) && m.node != v && t.trace == s.trace + [m]
    requires t.state[v] == s.state[v] && t.attempt[v] == s.attempt[v]
    requires t.output[v] == s.output[v] && t.job[v] == s.job[v]
    ensures AgreesAt(c, exec, ends, t, v)
  {
    hide RunReady, RunDispatched, InputsReady, InputsOf;
    AppendMove(s.trace, m, v);
  }

  lemma PromoteAgrees(c: Config, exec: Executor, ends: Ends, s: St, v: nat)
    requires Checked(c) && AllOfOnly(c.g) && Consistent(c, exec, ends)
    requires Shape(c.g, s) && Agrees(c, exec, ends, s) && v < c.g.N()
    requires s.state[v].Pending? && JoinMet(c.g, s.state, v)
    ensures AgreesAt(c, exec, ends, PromoteOne(c.g, s, v), v)
  {
    hide RunReady, RunDispatched, InputsOf;
    var m := Move(v, Pending, Ready, DepsMet, "");
    AppendMove(s.trace, m, v);
    JoinedInputs(c, exec, ends, s, v);
    assert AgreesAt(c, exec, ends, s, v) && ends[v] == EvalNode(c, exec, ends, v);
    hide Agrees, Consistent, InputsReady, JoinMet, Checked;
    assert [] + [m] == [m];
  }

  lemma JoinedInputs(c: Config, exec: Executor, ends: Ends, s: St, v: nat)
    requires WellFormed(c.g) && AllOfOnly(c.g)
    requires Shape(c.g, s) && Agrees(c, exec, ends, s) && v < c.g.N() && JoinMet(c.g, s.state, v)
    ensures InputsReady(c.g, ends, v)
  {
    hide RunReady, RunDispatched, InputsOf;
    forall u | u in c.g.preds[v]
      ensures u in ends && ends[u].state.Executed?
    {
      assert AgreesAt(c, exec, ends, s, u);
    }
  }

  lemma LaunchAgrees(c: Config, exec: Executor, ends: Ends, s: St, v: nat)
    requires Checked(c) && AllOfOnly(c.g)
    requires Shape(c.g, s) && Agrees(c, exec, ends, s) && v < c.g.N()
    requires s.state[v].Ready? && JoinMet(c.g, s.state, v)
    ensures AgreesAt(c, exec, ends, LaunchOne(c.g, s, v), v)
  {
    var m := Move(v, Ready, Running, Dispatch, "");
    AppendMove(s.trace, m, v);
    assert AgreesAt(c, exec, ends, s, v);
    InputsAgree(c, exec, ends, s, v);
    var rest := RunDispatched(c.policy, exec, v, InputsOf(c.g, ends, v), s.attempt[v]);
    assert Proj(s.trace, v) + ([m] + rest.moves) == (Proj(s.trace, v) + [m]) + rest.moves;
  }

  lemma InputsAgree(c: Config, exec: Executor, ends: Ends, s: St, v: nat)
    requires WellFormed(c.g) && AllOfOnly(c.g)
    requires Shape(c.g, s) && Agrees(c, exec, ends, s) && v < c.g.N()
    requires JoinMet(c.g, s.state, v) && InputsReady(c.g, ends, v)
    ensures InputsFor(c.g, s, v) == InputsOf(c.g, ends, v)
  {
    forall u | u in c.g.preds[v]
      ensures s.state[u].Executed? && s.output[u] == ends[u].output
    {
      assert AgreesAt(c, exec, ends, s, u);
    }
  }

  lemma StepAgrees(c: Config, exec: Executor, ends: Ends, s: St, a: Step)
    requires Checked(c) && AllOfOnly(c.g) && Consistent(c, exec, ends)
    requires Inv(c, s) && Agrees(c, exec, ends, s) && Enabled(c, s, a)
    ensures Agrees(c, exec, ends, Do(c, s, a))
  {
    match a
    case Promote(v) =>
      PromoteJoin(c.g, s, v);
      PromoteAllAgree(c, exec, ends, s, v);
    case Launch(v) =>
      ReadyIsJoined(c, s, v);
      LaunchAllAgree(c, exec, ends, s, v);
    case SkipLoser(v, j, w) =>
    case Round =>
      TickAgrees(c, exec, ends, s);
  }

  lemma PromoteAllAgree(c: Config, exec: Executor, ends: Ends, s: St, v: nat)
    requires Checked(c) && AllOfOnly(c.g) && Consistent(c, exec, ends)
    requires Shape(c.g, s) && Agrees(c, exec, ends, s) && v < c.g.N()
    requires s.state[v].Pending? && JoinMet(c.g, s.state, v)
    ensures Agrees(c, exec, ends, PromoteOne(c.g, s, v))
  {
    PromoteAgrees(c, exec, ends, s, v);
    hide AgreesAt, Agrees, Consistent, JoinMet, Checked;
    OthersAgree(c, exec, ends, s, PromoteOne(c.g, s, v), Move(v, Pending, Ready, DepsMet, ""));
  }

  lemma LaunchAllAgree(c: Config, exec: Executor, ends: Ends, s: St, v: nat)
    requires Checked(c) && AllOfOnly(c.g)
    requires Shape(c.g, s) && Agrees(c, exec, ends, s) && v < c.g.N()
    requires s.state[v].Ready? && JoinMet(c.g, s.state, v)
    ensures Agrees(c, exec, ends, LaunchOne(c.g, s, v))
  {
    LaunchAgrees(c, exec, ends, s, v);
    hide AgreesAt, Agrees, JoinMet, Checked, InputsFor;
    OthersAgree(c, exec, ends, s, LaunchOne(c.g, s, v), Move(v, Ready, Running, Dispatch, ""));
  }

  lemma TickAgrees(c: Config, exec: Executor, ends: Ends, s: St)
    requires WellFormed(c.g) && Shape(c.g, s) && Agrees(c, exec, ends, s)
    ensures Agrees(c, exec, ends, Tick(s))
  {
    hide RunReady, RunDispatched, InputsReady, InputsOf;
    assert forall v :: 0 <= v < c.g.N() && AgreesAt(c, exec, ends, s, v) ==> AgreesAt(c, exec, ends, Tick(s), v);
  }

  lemma ReadyIsJoined(c: Config, s: St, v: nat)
    requires WellFormed(c.g) && Inv(c, s) && v < c.g.N() && s.state[v].Ready?
    ensures JoinMet(c.g, s.state, v)
  {
  }

  lemma OthersAgree(c: Config, exec: Executor, ends: Ends, s: St, t: St, m: Move)
    requires WellFormed(c.g) && Shape(c.g, s) && Agrees(c, exec, ends, s) && Shape(c.g, t)
    requires t.trace == s.trace + [m] && m.node < c.g.N() && AgreesAt(c, exec, ends, t, m.node)
    requires forall v :: 0 <= v < c.g.N() && v != m.node ==>
      t.state[v] == s.state[v] && t.attempt[v] == s.attempt[v] && t.output[v] == s.output[v] && t.job[v] == s.job[v]
    ensures Agrees(c, exec, ends, t)
  {
    hide AgreesAt;
    forall v | 0 <= v < c.g.N()
      ensures v in ends && AgreesAt(c, exec, ends, t, v)
    {
      if v != m.node { AgreesElsewhere(c, exec, ends, s, t, m, v); }
    }
  }

  lemma {:induction false} FollowsAgrees(c: Config, exec: Executor, ends: Ends, s: St, acts: seq<Step>, t: St)
    requires Checked(c) && AllOfOnly(c.g) && Consistent(c, exec, ends)
    requires Inv(c, s) && Agrees(c, exec, ends, s) && Follows(c, s, acts, t)
    ensures Shape(c.g, t) && Agrees(c, exec, ends, t)
    decreases |acts|
  {
    assert Shape(c.g, s);
    if |acts| > 0 {
      StepInv(c, s, acts[0]);
      StepAgrees(c, exec, ends, s, acts[0]);
      hide Inv, Agrees, Enabled, Consistent;
      FollowsAgrees(c, exec, ends, Do(c, s, acts[0]), acts[1..], t);
    }
  }

  /** The result of a running node is what the executor says for the job it was given. */
  ghost predicate Conforms(exec: Executor, s: St, e: Event) {
    e.node < |s.job| && e.result == exec(e.node, s.job[e.node].inputs, s.job[e.node].tries)
  }

  /** One event absorbed: the reference makes the same one or two moves. */
  lemma AbsorbAgreesAt(c: Config, exec: Executor, ends: Ends, s: St, v: nat, r: Result)
    requires WellFormed(c.g) && Shape(c.g, s) && v < c.g.N() && v in ends && s.state[v].Running?
    requires AgreesAt(c, exec, ends, s, v) && r == exec(v, s.job[v].inputs, s.job[v].tries)
    ensures AgreesAt(c, exec, ends, Absorb(c, s, v, r), v)
  {
    hide RunReady, InputsReady, InputsOf;
    AbsorbMoves(c, s, v, r);
    if r.err != None {
      FailureAgreesAt(c, exec, ends, s, v, r);
    }
  }

  lemma FailureAgreesAt(c: Config, exec: Executor, ends: Ends, s: St, v: nat, r: Result)
    requires WellFormed(c.g) && Shape(c.g, s) && v < c.g.N() && v in ends && s.state[v].Running?
    requires AgreesAt(c, exec, ends, s, v) && r == exec(v, s.job[v].inputs, s.job[v].tries) && r.err.Some?
    ensures AgreesAt(c, exec, ends, Absorb(c, s, v, r), v)
  {
    hide RunReady, RunDispatched, InputsReady, InputsOf, Absorb, Proj, Decide, Spend, WellFormed;
    AbsorbMoves(c, s, v, r);
    var done, a := Proj(s.trace, v), s.attempt[v];
    DispatchedFails(c.policy, exec, v, InputsOf(c.g, ends, v), a, r);
    var d := Decide(c.policy, a, r);
    var fail, next := FailMove(v, r), DecisionMove(v, d);
    hide FailMove;
    if d.action == Recovery.Retry {
      var rest := RunReady(c.policy, exec, v, InputsOf(c.g, ends, v), Spend(a, d));
      assert done + ([fail, next] + rest.moves) == (done + [fail, next]) + rest.moves;
    }
  }

  lemma DispatchedFails(p: Policy, exec: Executor, v: nat, inputs: map<nat, string>, a: Attempt, r: Result)
    requires r == exec(v, inputs, Spent(a)) && r.err.Some?
    ensures var d := Decide(p, a, r); var rest := RunReady(p, exec, v, inputs, Spend(a, d));
      RunDispatched(p, exec, v, inputs, a) ==
      if d.action == Recovery.Retry
      then NodeEnd(rest.state, rest.output, [FailMove(v, r), DecisionMove(v, d)] + rest.moves)
      else NodeEnd(Failed, "", [FailMove(v, r), DecisionMove(v, d)])
  {
    hide RunReady;
  }

  /** What absorbing a result does to its node: one move on success, two on failure. */
  lemma AbsorbMoves(c: Config, s: St, v: nat, r: Result)
    requires Shape(c.g, s) && v < c.g.N() && s.state[v].Running?
    ensures var t, d := Absorb(c, s, v, r), Decide(c.policy, s.attempt[v], r);
      if r.err == None then
        && t.state[v].Executed? && t.output[v] == r.output
        && Proj(t.trace, v) == Proj(s.trace, v) + [SuccessMove(v)]
      else
        && t.state[v] == DecisionMove(v, d).to && t.output[v] == s.output[v] && t.attempt[v] == Spend(s.attempt[v], d)
        && Proj(t.trace, v) == Proj(s.trace, v) + [FailMove(v, r), DecisionMove(v, d)]
  {
    AbsorbProj(c, s, v, r, v);
    hide Decide, Spend, Proj;
  }

  lemma AbsorbProj(c: Config, s: St, v: nat, r: Result, x: nat)
    requires Shape(c.g, s) && v < c.g.N() && s.state[v].Running?
    ensures Proj(Absorb(c, s, v, r).trace, x) ==
      if x != v then Proj(s.trace, x)
      else if r.err == None then Proj(s.trace, x) + [SuccessMove(v)]
      else Proj(s.trace, x) + [FailMove(v, r), DecisionMove(v, Decide(c.policy, s.attempt[v], r))]
  {
    AbsorbTrace(c, s, v, r);
    hide Absorb, Decide, Proj;
    if r.err == None {
      AppendMove(s.trace, SuccessMove(v), x);
    } else {
      var fail, next := FailMove(v, r), DecisionMove(v, Decide(c.policy, s.attempt[v], r));
      AppendMove(s.trace, fail, x);
      AppendMove(s.trace + [fail], next, x);
      assert Proj(s.trace, x) + [fail] + [next] == Proj(s.trace, x) + [fail, next];
    }
  }

  lemma AbsorbElsewhere(c: Config, s: St, v: nat, r: Result, x: nat)
    requires Shape(c.g, s) && v < c.g.N() && s.state[v].Running? && x < c.g.N() && x != v
    ensures var t := Absorb(c, s, v, r);
      && t.state[x] == s.state[x] && t.attempt[x] == s.attempt[x]
      && t.output[x] == s.output[x] && t.job[x] == s.job[x] && Proj(t.trace, x) == Proj(s.trace, x)
  {
    AbsorbEffect(c, s, v, r);
    AbsorbProj(c, s, v, r, x);
    hide Proj, Decide, Spend;
  }

  lemma AbsorbAgrees(c: Config, exec: Executor, ends: Ends, s: St, v: nat, r: Result)
    requires WellFormed(c.g) && Shape(c.g, s) && Agrees(c, exec, ends, s) && v < c.g.N() && s.state[v].Running?
    requires r == exec(v, s.job[v].inputs, s.job[v].tries)
    ensures Agrees(c, exec, ends, Absorb(c, s, v, r))
  {
    hide Absorb, RunReady, RunDispatched, InputsReady, InputsOf, Proj;
    forall x | 0 <= x < c.g.N()
      ensures x in ends && AgreesAt(c, exec, ends, Absorb(c, s, v, r), x)
    {
      if x == v {
        AbsorbAgreesAt(c, exec, ends, s, v, r);
      } else {
        AbsorbElsewhere(c, s, v, r, x);
      }
    }
  }

  /** A run all of whose results come from the executor. */
  ghost predicate Executes(c: Config, exec: Executor, evs: seq<Event>)
    requires WellFormed(c.g) && InPlan(c.g, evs)
    decreases |evs|
  {
    |evs| > 0 ==>
      Executes(c, exec, evs[..|evs| - 1]) && Conforms(exec, After(c, evs[..|evs| - 1]), evs[|evs| - 1])
  }

  /** What the executor answers when v reports. */
  ghost function Answer(exec: Executor, s: St, v: nat): Result
    requires v < |s.job|
  {
    exec(v, s.job[v].inputs, s.job[v].tries)
  }

  lemma ExecutesLast(c: Config, exec: Executor, init: seq<Event>, evs: seq<Event>)
    requires WellFormed(c.g) && InPlan(c.g, evs) && |evs| > 0 && init == evs[..|evs| - 1] && InPlan(c.g, init)
    requires Executes(c, exec, init) && Conforms(exec, After(c, init), evs[|evs| - 1])
    ensures Executes(c, exec, evs)
  {
    hide After, Conforms, WellFormed;
  }

  lemma MoreInPlan(g: Graph, evs: seq<Event>, e: Event)
    requires InPlan(g, evs) && e.node < g.N()
    ensures InPlan(g, evs + [e])
    ensures (evs + [e])[..|evs + [e]| - 1] == evs && (evs + [e])[|evs + [e]| - 1] == e
  {
  }

  lemma ExecutesMore(c: Config, exec: Executor, evs: seq<Event>, v: nat)
    requires WellFormed(c.g) && InPlan(c.g, evs) && Executes(c, exec, evs) && v < c.g.N()
    ensures InPlan(c.g, evs + [Event(v, Answer(exec, After(c, evs), v))])
    ensures Executes(c, exec, evs + [Event(v, Answer(exec, After(c, evs), v))])
  {
    var e := Event(v, Answer(exec, After(c, evs), v));
    AnswerConforms(exec, After(c, evs), v);
    hide *;
    MoreInPlan(c.g, evs, e);
    ExecutesLast(c, exec, evs, evs + [e]);
  }

  lemma AnswerConforms(exec: Executor, s: St, v: nat)
    requires v < |s.job|
    ensures Conforms(exec, s, Event(v, Answer(exec, s, v)))
  {
  }

  /** Every executor has returning runs: any run with its results goes on to one that has returned,
      within the bound. */
  lemma {:induction false} ExecutorCompletes(c: Config, exec: Executor, evs: seq<Event>) returns (full: seq<Event>)
    requires Checked(c) && Feasible(c, evs) && Executes(c, exec, evs)
    ensures Returned(c, full) && evs <= full && |full| <= MaxEvents(c)
    ensures Executes(c, exec, full)
    decreases MaxEvents(c) + 1 - |evs|
  {
    assert WellFormed(c.g) && InPlan(c.g, evs);
    EventsBound(c, evs);
    hide *;
    if Returned(c, evs) {
      full := evs;
    } else {
      var v := RunContinues(c, evs);
      var e := Event(v, Answer(exec, After(c, evs), v));
      ExecutesMore(c, exec, evs, v);
      EventsBound(c, evs + [e]);
      full := ExecutorCompletes(c, exec, evs + [e]);
      PrefixMore(evs, e, full);
    }
  }

  lemma PrefixMore(evs: seq<Event>, e: Event, full: seq<Event>)
    requires evs + [e] <= full
    ensures evs <= full
  {
    assert (evs + [e])[..|evs|] == evs;
  }

  lemma BlankAgrees(c: Config, exec: Executor, ends: Ends)
    requires WellFormed(c.g) && Consistent(c, exec, ends)
    ensures Agrees(c, exec, ends, Blank(c.g))
  {
    hide EvalNode;
  }

  lemma StartAgrees(c: Config, exec: Executor, ends: Ends)
    requires Checked(c) && AllOfOnly(c.g) && Consistent(c, exec, ends)
    ensures Agrees(c, exec, ends, After(c, []))
  {
    hide Consistent, Agrees, Inv;
    BlankInv(c);
    BlankAgrees(c, exec, ends);
    var acts := StartSteps(c);
    FollowsAgrees(c, exec, ends, Blank(c.g), acts, Start(c));
  }

  lemma {:induction false} RunAgrees(c: Config, exec: Executor, ends: Ends, evs: seq<Event>)
    requires Checked(c) && AllOfOnly(c.g) && Acyclic(c.g) && Consistent(c, exec, ends)
    requires Feasible(c, evs) && Executes(c, exec, evs)
    ensures Agrees(c, exec, ends, After(c, evs))
    decreases |evs|
  {
    assert InPlan(c.g, evs);
    hide Consistent, Agrees, Inv, Promoted, Handle, Acyclic, Feasible, After, Poll, AllOfOnly, Checked;
    if |evs| == 0 {
      StartAgrees(c, exec, ends);
      assert evs == [];
    } else {
      var init, e := evs[..|evs| - 1], evs[|evs| - 1];
      assert Executes(c, exec, init) && Conforms(exec, After(c, init), e);
      SplitLast(evs);
      RunExtend(c, init, e);
      RunAgrees(c, exec, ends, init);
      RunAtHead(c, init);
      HandleAgrees(c, exec, ends, After(c, init), e);
    }
  }

  lemma SourceRuns(c: Config, exec: Executor, ends: Ends, s: St, v: nat)
    requires Checked(c) && Inv(c, s) && Agrees(c, exec, ends, s) && v in s.workers
    ensures v < c.g.N() && s.state[v].Running?
  {
    EventSource(c, s, v);
    assert AgreesAt(c, exec, ends, s, v);
  }

  lemma HandleAgrees(c: Config, exec: Executor, ends: Ends, s: St, e: Event)
    requires Checked(c) && AllOfOnly(c.g) && Acyclic(c.g) && Consistent(c, exec, ends)
    requires Inv(c, s) && Agrees(c, exec, ends, s) && e.node in s.workers && Conforms(exec, s, e)
    ensures e.node < c.g.N() && Agrees(c, exec, ends, Handle(c, s, e))
  {
    SourceRuns(c, exec, ends, s, e.node);
    var acts := HandleSteps(c, s, e);
    hide Inv, Agrees, AgreesAt, Consistent, Handle, Absorb, Follows;
    AbsorbInv(c, s, e.node, e.result);
    AbsorbAgrees(c, exec, ends, s, e.node, e.result);
    FollowsAgrees(c, exec, ends, Absorb(c, s, e.node, e.result), acts, Handle(c, s, e));
  }

  // ---- at the end ----------------------------------------------------------------------------------

  /** The state reports what the reference computed: state, output and moves of every node. */
  ghost predicate Reports(c: Config, ends: Ends, s: St)
    requires WellFormed(c.g) && Shape(c.g, s)
  {
    forall v :: 0 <= v < c.g.N() ==> v in ends && ends[v] == NodeEnd(s.state[v], s.output[v], Proj(s.trace, v))
  }

  /** A node still pending when the run returns is pending in the reference as well. */
  lemma {:induction false} PendingAgrees(c: Config, exec: Executor, ends: Ends, evs: seq<Event>, rank: seq<nat>, v: nat)
    requires Checked(c) && AllOfOnly(c.g) && Consistent(c, exec, ends) && IsRank(c.g, rank)
    requires Returned(c, evs) && Agrees(c, exec, ends, After(c, evs))
    requires v < c.g.N() && After(c, evs).state[v].Pending?
    ensures v in ends && ends[v] == NodeEnd(Pending, "", [])
    decreases rank[v]
  {
    StalledNode(c, evs, v);
    var u := BlockingPred(c.g, After(c, evs).state, v);
    assert AgreesAt(c, exec, ends, After(c, evs), u);
    hide Returned, After, AgreesAt, RunReady, RunDispatched, Checked;
    if After(c, evs).state[u].Pending? {
      PendingAgrees(c, exec, ends, evs, rank, u);
    } else {
      FailedAgrees(c, exec, ends, After(c, evs), u);
    }
    assert !InputsReady(c.g, ends, v) && ends[v] == EvalNode(c, exec, ends, v);
  }

  lemma FailedAgrees(c: Config, exec: Executor, ends: Ends, s: St, u: nat)
    requires WellFormed(c.g) && Shape(c.g, s) && u < c.g.N() && u in ends
    requires AgreesAt(c, exec, ends, s, u) && s.state[u].Failed?
    ensures ends[u].state.Failed?
  {
  }

  /** Refinement: every returned, uncancelled run of a checked all_of plan with a functional
      executor ends with the states, outputs, per-node transitions and success flag of the
      sequential evaluation in `TopoOrder` order. */
  lemma RunRefinesSequential(c: Config, exec: Executor, evs: seq<Event>)
    requires Checked(c) && AllOfOnly(c.g) && Acyclic(c.g)
    requires Returned(c, evs) && Executes(c, exec, evs)
    ensures Reports(c, Sequential(c, exec), After(c, evs))
    ensures Succeeded(After(c, evs).state) <==>
      forall v :: 0 <= v < c.g.N() ==> v in Sequential(c, exec) && Sequential(c, exec)[v].state.Executed?
  {
    var ends, s := Sequential(c, exec), After(c, evs);
    SequentialConsistent(c, exec);
    RunAgrees(c, exec, ends, evs);
    var rank := AcyclicHasRank(c.g);
    forall v | 0 <= v < c.g.N()
      ensures v in ends && ends[v] == NodeEnd(s.state[v], s.output[v], Proj(s.trace, v))
      ensures !s.state[v].Skipped? && !s.state[v].Cancelled?
    {
      EndReports(c, exec, ends, evs, rank, v);
    }
  }

  lemma EndReports(c: Config, exec: Executor, ends: Ends, evs: seq<Event>, rank: seq<nat>, v: nat)
    requires Checked(c) && AllOfOnly(c.g) && Consistent(c, exec, ends) && IsRank(c.g, rank)
    requires Returned(c, evs) && Agrees(c, exec, ends, After(c, evs)) && v < c.g.N()
    ensures var s := After(c, evs);
      && v in ends && ends[v] == NodeEnd(s.state[v], s.output[v], Proj(s.trace, v))
      && !s.state[v].Skipped? && !s.state[v].Cancelled?
  {
    assert AgreesAt(c, exec, ends, After(c, evs), v);
    if !After(c, evs).state[v].IsTerminal() {
      StalledNode(c, evs, v);
      PendingAgrees(c, exec, ends, evs, rank, v);
    }
  }

  /** Schedule independence: two such runs agree whatever their event orders and whatever their
      degrees of parallelism. */
  lemma ScheduleIndependence(c1: Config, evs1: seq<Event>, c2: Config, evs2: seq<Event>, exec: Executor)
    requires Checked(c1) && AllOfOnly(c1.g) && Acyclic(c1.g)
    requires c2.g == c1.g && c2.policy == c1.policy && c2.maxParallel >= 1
    requires Returned(c1, evs1) && Executes(c1, exec, evs1)
    requires Returned(c2, evs2) && Executes(c2, exec, evs2)
    ensures var s1, s2 := After(c1, evs1), After(c2, evs2);
      && s1.state == s2.state && s1.output == s2.output
      && (forall v :: 0 <= v < c1.g.N() ==> Proj(s1.trace, v) == Proj(s2.trace, v))
      && Succeeded(s1.state) == Succeeded(s2.state)
  {
    hide Executes, After, Acyclic, Sequential;
    RunRefinesSequential(c1, exec, evs1);
    RunRefinesSequential(c2, exec, evs2);
    SameSequential(c1, c2, exec);
    SameReports(c1, c2, Sequential(c1, exec), After(c1, evs1), After(c2, evs2));
  }

  lemma SameReports(c1: Config, c2: Config, ends: Ends, s1: St, s2: St)
    requires WellFormed(c1.g) && c2.g == c1.g && Shape(c1.g, s1) && Shape(c2.g, s2)
    requires Reports(c1, ends, s1) && Reports(c2, ends, s2)
    ensures s1.state == s2.state && s1.output == s2.output
    ensures forall v :: 0 <= v < c1.g.N() ==> Proj(s1.trace, v) == Proj(s2.trace, v)
  {
    hide Proj;
    assert forall v :: 0 <= v < c1.g.N() ==> s1.state[v] == s2.state[v] && s1.output[v] == s2.output[v];
  }

  lemma SameSequential(c1: Config, c2: Config, exec: Executor)
    requires WellFormed(c1.g) && c2.g == c1.g && c2.policy == c1.policy
    ensures Sequential(c1, exec) == Sequential(c2, exec)
  {
    TopoPrefix(c1.g);
    SameEvalAll(c1, c2, exec, TopoSpec(c1.g));
  }

  lemma {:induction false} SameEvalAll(c1: Config, c2: Config, exec: Executor, order: seq<nat>)
    requires WellFormed(c1.g) && c2.g == c1.g && c2.policy == c1.policy
    requires forall i :: 0 <= i < |order| ==> order[i] < c1.g.N()
    ensures EvalAll(c1, exec, order) == EvalAll(c2, exec, order)
    decreases |order|
  {
    if |order| > 0 {
      SameEvalAll(c1, c2, exec, order[..|order| - 1]);
    }
  }
}
