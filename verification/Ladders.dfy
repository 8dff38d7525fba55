/** The recovery ladder as runs climb it: what a node has spent, and every decision in its part of the
    log, is what the ladder gives for the failures logged so far. */
module Ladders {
  import opened Plans
  import opened Graphs
  import opened Recovery
  import opened Traces
  import opened Machine
  import opened Steps
  import opened Invariants
  import opened LoopHead

  /** The failures among a node's moves: which of them were transient. */
  function Kinds(moves: seq<Move>): seq<bool> {
    if |moves| == 0 then []
    else
      var rest, m := Kinds(moves[..|moves| - 1]), moves[|moves| - 1];
      if m.to.FailedRetryable? then rest + [m.trigger == FailRetryable] else rest
  }

  /** The moves that carry out a decision. */
  function Answers(moves: seq<Move>): seq<Move> {
    if |moves| == 0 then []
    else
      var rest, m := Answers(moves[..|moves| - 1]), moves[|moves| - 1];
      if m.from.FailedRetryable? then rest + [m] else rest
  }

  lemma OneMore(moves: seq<Move>, m: Move)
    ensures Kinds(moves + [m]) ==
      if m.to.FailedRetryable? then Kinds(moves) + [m.trigger == FailRetryable] else Kinds(moves)
    ensures Answers(moves + [m]) == if m.from.FailedRetryable? then Answers(moves) + [m] else Answers(moves)
  {
    assert (moves + [m])[..|moves|] == moves;
  }

  /** Attempts and decisions follow from the failures. */
  ghost predicate Ladder(p: Policy, v: nat, a: Attempt, moves: seq<Move>) {
    LadderFor(p, v, a, Kinds(moves), Answers(moves))
  }

  ghost predicate LadderFor(p: Policy, v: nat, a: Attempt, kinds: seq<bool>, answers: seq<Move>) {
    && a == Climb(p, kinds) && |answers| == |kinds|
    && forall i :: 0 <= i < |kinds| ==> answers[i] == DecisionMove(v, DecisionAt(p, kinds, i))
  }

  ghost predicate Laddered(c: Config, s: St)
    requires Shape(c.g, s)
  {
    forall v :: 0 <= v < c.g.N() ==> Settled(s.state[v]) && Ladder(c.policy, v, s.attempt[v], Proj(s.trace, v))
  }

  // ---- one failure --------------------------------------------------------------------------------

  lemma ClimbMore(p: Policy, kinds: seq<bool>, k: bool)
    ensures Climb(p, kinds + [k]) == Spend(Climb(p, kinds), DecideKind(p, Climb(p, kinds), k))
    ensures DecisionAt(p, kinds + [k], |kinds|) == DecideKind(p, Climb(p, kinds), k)
    ensures forall i :: 0 <= i < |kinds| ==> DecisionAt(p, kinds + [k], i) == DecisionAt(p, kinds, i)
  {
    assert (kinds + [k])[..|kinds|] == kinds;
    assert forall i :: 0 <= i < |kinds| ==> (kinds + [k])[..i] == kinds[..i];
  }

  lemma LadderMore(p: Policy, v: nat, a: Attempt, kinds: seq<bool>, answers: seq<Move>, k: bool)
    requires LadderFor(p, v, a, kinds, answers)
    ensures var d := DecideKind(p, a, k);
      LadderFor(p, v, Spend(a, d), kinds + [k], answers + [DecisionMove(v, d)])
  {
    ClimbMore(p, kinds, k);
    hide Climb, DecisionAt, DecideKind, Spend, DecisionMove;
  }

  lemma LadderFails(p: Policy, v: nat, a: Attempt, moves: seq<Move>, r: Result)
    requires Ladder(p, v, a, moves) && r.err.Some?
    ensures var d := Decide(p, a, r); Ladder(p, v, Spend(a, d), moves + [FailMove(v, r)] + [DecisionMove(v, d)])
  {
    LadderMore(p, v, a, Kinds(moves), Answers(moves), Classify(r));
    FailedMoves(moves, v, r, Decide(p, a, r));
    hide Kinds, Answers, LadderFor, DecideKind, Spend;
  }

  lemma FailedMoves(moves: seq<Move>, v: nat, r: Result, d: Decision)
    requires r.err.Some?
    ensures Kinds(moves + [FailMove(v, r)] + [DecisionMove(v, d)]) == Kinds(moves) + [Classify(r)]
    ensures Answers(moves + [FailMove(v, r)] + [DecisionMove(v, d)]) == Answers(moves) + [DecisionMove(v, d)]
  {
    OneMore(moves, FailMove(v, r));
    OneMore(moves + [FailMove(v, r)], DecisionMove(v, d));
    hide Kinds, Answers;
  }

  lemma LadderQuiet(p: Policy, v: nat, a: Attempt, moves: seq<Move>, m: Move)
    requires Ladder(p, v, a, moves) && !m.from.FailedRetryable? && !m.to.FailedRetryable?
    ensures Ladder(p, v, a, moves + [m])
  {
    OneMore(moves, m);
    hide Kinds, Answers;
  }

  // ---- the loop -----------------------------------------------------------------------------------

  lemma MoveLaddered(c: Config, s: St, v: nat, to: NodeState, trigger: Trigger, payload: string, t: St)
    requires Shape(c.g, s) && Shape(c.g, t) && Laddered(c, s) && v < c.g.N() && Settled(to)
    requires var r := Transition(c.g, s, v, to, trigger, payload);
      t.state == r.state && t.trace == r.trace && t.attempt == s.attempt
    ensures Laddered(c, t)
  {
    var m := Move(v, s.state[v], to, trigger, payload);
    hide Ladder, Proj;
    forall x | 0 <= x < c.g.N()
      ensures Settled(t.state[x]) && Ladder(c.policy, x, t.attempt[x], Proj(t.trace, x))
    {
      AppendMove(s.trace, m, x);
      if x == v { LadderQuiet(c.policy, v, s.attempt[v], Proj(s.trace, v), m); }
    }
  }

  lemma StepLaddered(c: Config, s: St, a: Step)
    requires WellFormed(c.g) && Shape(c.g, s) && Laddered(c, s) && Enabled(c, s, a)
    ensures Laddered(c, Do(c, s, a))
  {
    hide Laddered;
    match a
    case Promote(v) => MoveLaddered(c, s, v, Ready, DepsMet, "", Do(c, s, a));
    case Launch(v) => MoveLaddered(c, s, v, Running, Dispatch, "", Do(c, s, a));
    case SkipLoser(v, j, w) => MoveLaddered(c, s, v, Skipped, Skip, "", Do(c, s, a));
    case Round => SameLaddered(c, s, Tick(s));
  }

  lemma SameLaddered(c: Config, s: St, t: St)
    requires Shape(c.g, s) && Shape(c.g, t) && Laddered(c, s)
    requires t.state == s.state && t.attempt == s.attempt && t.trace == s.trace
    ensures Laddered(c, t)
  {
  }

  lemma {:induction false} FollowsLaddered(c: Config, s: St, acts: seq<Step>, t: St)
    requires WellFormed(c.g) && Shape(c.g, s) && Laddered(c, s) && Follows(c, s, acts, t)
    ensures Shape(c.g, t) && Laddered(c, t)
    decreases |acts|
  {
    if |acts| > 0 {
      StepLaddered(c, s, acts[0]);
      hide Laddered, Enabled, Do;
      FollowsLaddered(c, Do(c, s, acts[0]), acts[1..], t);
    }
  }

  lemma AbsorbLaddered(c: Config, s: St, v: nat, r: Result)
    requires Shape(c.g, s) && Laddered(c, s) && v < c.g.N() && s.state[v].Running?
    ensures Laddered(c, Absorb(c, s, v, r))
  {
    var t := Absorb(c, s, v, r);
    hide Absorb, Ladder, Proj, Settled;
    forall x | 0 <= x < c.g.N()
      ensures Settled(t.state[x]) && Ladder(c.policy, x, t.attempt[x], Proj(t.trace, x))
    {
      AbsorbLadderedAt(c, s, v, r, x);
    }
  }

  lemma AbsorbLadderedAt(c: Config, s: St, v: nat, r: Result, x: nat)
    requires Shape(c.g, s) && v < c.g.N() && s.state[v].Running? && x < c.g.N()
    requires Settled(s.state[x]) && Ladder(c.policy, x, s.attempt[x], Proj(s.trace, x))
    ensures var t := Absorb(c, s, v, r);
      Settled(t.state[x]) && Ladder(c.policy, x, t.attempt[x], Proj(t.trace, x))
  {
    AbsorbNode(c, s, v, r, x);
    AbsorbMovesOf(c, s, v, r, x);
    hide Absorb, Ladder, Proj, Decide, Spend, Appended, Settled;
    if x == v {
      LadderAnswers(c.policy, v, s.attempt[v], Proj(s.trace, v), r);
    } else {
      assert Proj(s.trace, x) + [] == Proj(s.trace, x);
    }
  }

  /** What absorbing r appends to the moves of its node. */
  function Appended(p: Policy, v: nat, a: Attempt, r: Result): seq<Move> {
    if r.err == None then [SuccessMove(v)] else [FailMove(v, r), DecisionMove(v, Decide(p, a, r))]
  }

  lemma AbsorbMovesOf(c: Config, s: St, v: nat, r: Result, x: nat)
    requires Shape(c.g, s) && v < c.g.N() && s.state[v].Running?
    ensures Proj(Absorb(c, s, v, r).trace, x) ==
      Proj(s.trace, x) + if x == v then Appended(c.policy, v, s.attempt[v], r) else []
  {
    AbsorbTrace(c, s, v, r);
    hide Absorb, Proj, Decide;
    if r.err == None {
      AppendMove(s.trace, SuccessMove(v), x);
    } else {
      AppendMove(s.trace, FailMove(v, r), x);
      AppendMove(s.trace + [FailMove(v, r)], DecisionMove(v, Decide(c.policy, s.attempt[v], r)), x);
    }
  }

  lemma LadderAnswers(p: Policy, v: nat, a: Attempt, moves: seq<Move>, r: Result)
    requires Ladder(p, v, a, moves)
    ensures Ladder(p, v, if r.err == None then a else Spend(a, Decide(p, a, r)), moves + Appended(p, v, a, r))
  {
    hide Ladder, Decide, Spend;
    if r.err == None {
      LadderQuiet(p, v, a, moves, SuccessMove(v));
    } else {
      LadderFails(p, v, a, moves, r);
      var f, d := FailMove(v, r), DecisionMove(v, Decide(p, a, r));
      assert moves + [f] + [d] == moves + [f, d];
    }
  }

  lemma AbsorbNode(c: Config, s: St, v: nat, r: Result, x: nat)
    requires Shape(c.g, s) && v < c.g.N() && x < c.g.N() && Settled(s.state[x])
    ensures var t := Absorb(c, s, v, r);
      && Settled(t.state[x])
      && t.attempt[x] == if x != v || r.err == None then s.attempt[x]
                         else Spend(s.attempt[v], Decide(c.policy, s.attempt[v], r))
  {
    AbsorbEffect(c, s, v, r);
    hide Decide, Spend;
  }

  lemma HandleLaddered(c: Config, s: St, e: Event)
    requires Checked(c) && Inv(c, s) && Laddered(c, s) && e.node in s.workers
    ensures e.node < c.g.N() && Laddered(c, Handle(c, s, e))
  {
    EventSource(c, s, e.node);
    assert Shape(c.g, s);
    var acts := HandleSteps(c, s, e);
    hide Inv, Laddered, Absorb, Handle, Follows;
    if s.state[e.node].IsTerminal() {
      SameLaddered(c, s, Receive(s, e.node));
      FollowsLaddered(c, Receive(s, e.node), acts, Handle(c, s, e));
    } else {
      AbsorbLaddered(c, s, e.node, e.result);
      FollowsLaddered(c, Absorb(c, s, e.node, e.result), acts, Handle(c, s, e));
    }
  }

  lemma StartLaddered(c: Config)
    requires WellFormed(c.g)
    ensures Laddered(c, Start(c))
  {
    var acts := StartSteps(c);
    assert Laddered(c, Blank(c.g));
    hide Laddered, Start, Follows;
    FollowsLaddered(c, Blank(c.g), acts, Start(c));
  }

  lemma {:induction false} RunLaddered(c: Config, evs: seq<Event>)
    requires Checked(c) && Feasible(c, evs)
    ensures Laddered(c, After(c, evs))
    decreases |evs|
  {
    hide After, Handle, AtHead, Laddered, Start, Poll;
    if |evs| == 0 {
      NoEvents(c);
      assert evs == [];
      StartLaddered(c);
    } else {
      LastPass(c, evs);
      RunLaddered(c, evs[..|evs| - 1]);
      RunAtHead(c, evs[..|evs| - 1]);
      PassLaddered(c, After(c, evs[..|evs| - 1]), evs[|evs| - 1]);
    }
  }

  lemma PassLaddered(c: Config, s: St, e: Event)
    requires Checked(c) && AtHead(c, s) && Laddered(c, s) && e.node in s.workers && e.node < c.g.N()
    ensures Laddered(c, Handle(c, s, e))
  {
    hide Inv, Handle, Laddered;
    HandleLaddered(c, s, e);
  }

  lemma {:induction false} DrainLaddered(c: Config, s: St, vs: seq<nat>)
    requires Shape(c.g, s) && Laddered(c, s) && forall i :: 0 <= i < |vs| ==> vs[i] < c.g.N()
    ensures Laddered(c, Drain(c.g, s, vs))
    decreases |vs|
  {
    hide Laddered, DrainOne;
    if |vs| > 0 {
      DrainLaddered(c, s, vs[..|vs| - 1]);
      DrainOneLaddered(c, Drain(c.g, s, vs[..|vs| - 1]), vs[|vs| - 1]);
    }
  }

  lemma DrainOneLaddered(c: Config, s: St, v: nat)
    requires Shape(c.g, s) && Laddered(c, s) && v < c.g.N()
    ensures Laddered(c, DrainOne(c.g, s, v))
  {
    hide Laddered;
    if s.state[v].IsTerminal() {
      SameLaddered(c, s, DrainOne(c.g, s, v));
    } else {
      MoveLaddered(c, s, v, Cancelled, Cancel, "", DrainOne(c.g, s, v));
    }
  }

  // ---- runs climb the ladder ----------------------------------------------------------------------

  /** In every reachable state a node's attempts are those of the ladder after the failures in its part
      of the log, and its logged decisions are the ladder's, one per failure. */
  lemma RunClimbs(c: Config, s: St, v: nat)
    requires Checked(c) && Reachable(c, s) && v < c.g.N()
    ensures Shape(c.g, s) && Ladder(c.policy, v, s.attempt[v], Proj(s.trace, v))
  {
    var evs, vs :| Feasible(c, evs) && DrainFeasible(c.g, After(c, evs), vs)
      && (vs != [] ==> Poll(c, After(c, evs)).Wait?) && s == Drain(c.g, After(c, evs), vs);
    hide After, Drain, Ladder, Poll;
    RunLaddered(c, evs);
    DrainLaddered(c, After(c, evs), vs);
  }

  /** So the retries of a node are its transient failures so far, up to the policy's cap. */
  lemma RetriesCountFailures(c: Config, s: St, v: nat)
    requires Checked(c) && Reachable(c, s) && v < c.g.N()
    ensures Shape(c.g, s)
    ensures s.attempt[v].retries == Min(c.policy.RetryCap(), Transients(Kinds(Proj(s.trace, v))))
    ensures s.attempt[v].retries + s.attempt[v].patches <= |Kinds(Proj(s.trace, v))|
  {
    RunClimbs(c, s, v);
    hide Reachable, Checked;
    LadderBudgets(c.policy, Kinds(Proj(s.trace, v)));
    ClimbPaid(c.policy, Kinds(Proj(s.trace, v)));
  }

  lemma {:induction false} ClimbPaid(p: Policy, kinds: seq<bool>)
    ensures Climb(p, kinds).retries + Climb(p, kinds).patches <= |kinds|
    decreases |kinds|
  {
    if |kinds| > 0 { ClimbPaid(p, kinds[..|kinds| - 1]); }
  }

  function MoveRung(m: Move): nat {
    match m.trigger
    case Retry => 1
    case Patch => 2
    case ReplanRequested => 3
    case _ => 4
  }

  /** The log shows escalation going back down exactly where a structural failure is followed by a
      transient one with fewer than R transient failures before. */
  lemma LoggedRungDropsIff(c: Config, s: St, v: nat, i: nat)
    requires Checked(c) && Reachable(c, s) && v < c.g.N() && i + 1 < |Answers(Proj(s.trace, v))|
    ensures var kinds, answers := Kinds(Proj(s.trace, v)), Answers(Proj(s.trace, v));
      |kinds| == |answers| &&
      (MoveRung(answers[i + 1]) < MoveRung(answers[i]) <==>
       !kinds[i] && kinds[i + 1] && Transients(kinds[..i]) < c.policy.RetryCap())
  {
    RunClimbs(c, s, v);
    var kinds := Kinds(Proj(s.trace, v));
    RungDropsIff(c.policy, kinds, i);
    SameRung(c.policy, kinds, i, v);
    SameRung(c.policy, kinds, i + 1, v);
    hide Reachable, Checked, Kinds, Answers, Proj, DecisionAt, MoveRung, Rung, Transients, DecisionMove;
  }

  lemma SameRung(p: Policy, kinds: seq<bool>, i: nat, v: nat)
    requires i < |kinds|
    ensures MoveRung(DecisionMove(v, DecisionAt(p, kinds, i))) == Rung(DecisionAt(p, kinds, i))
  {
    hide Climb;
  }
}
