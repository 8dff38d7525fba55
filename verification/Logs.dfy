/** What one pass of the loop writes into the log, entry by entry and in the words of the code. */
module Logs {
  import opened Plans
  import opened Graphs
  import opened Lists
  import opened Recovery
  import opened Traces
  import opened Machine
  import opened Invariants
  import opened LoopHead
  import opened Theorems
  import opened Dispatching
  import opened Scans
  import Wal

  // ---- the moves of one pass ------------------------------------------------------------------------

  /** The moves an event itself makes. */
  function EventMoves(c: Config, s: St, e: Event): seq<Move>
    requires Shape(c.g, s) && e.node < c.g.N()
  {
    if s.state[e.node].IsTerminal() then []
    else if e.result.err == None then [SuccessMove(e.node)]
    else [FailMove(e.node, e.result), DecisionMove(e.node, Decide(c.policy, s.attempt[e.node], e.result))]
  }

  /** The state when the losers have been skipped. */
  function Settling(c: Config, s: St, e: Event): (r: St)
    requires WellFormed(c.g) && Shape(c.g, s) && e.node < c.g.N() && !s.state[e.node].IsTerminal()
    ensures Shape(c.g, r)
  {
    var a := Absorb(c, s, e.node, e.result);
    if e.result.err == None then SkipJoiners(c.g, a, e.node, 0) else a
  }

  /** The nodes at some positions of a list. */
  function Picked(list: seq<nat>, ps: seq<nat>): seq<nat>
    requires forall i :: 0 <= i < |ps| ==> ps[i] < |list|
  {
    seq(|ps|, i requires 0 <= i < |ps| => list[ps[i]])
  }

  function SkipMovesOf(st: seq<NodeState>, vs: seq<nat>): seq<Move>
    requires forall i :: 0 <= i < |vs| ==> vs[i] < |st|
  {
    seq(|vs|, i requires 0 <= i < |vs| => Move(vs[i], st[vs[i]], Skipped, Skip, ""))
  }

  /** Who is skipped after an event: nobody, or after a success those who lose when their turn comes. */
  ghost predicate Losers(c: Config, s: St, e: Event, vs: seq<nat>)
    requires WellFormed(c.g) && Shape(c.g, s) && e.node < c.g.N() && !s.state[e.node].IsTerminal()
  {
    if e.result.err != None then vs == []
    else
      var a := Absorb(c, s, e.node, e.result);
      var list := Lineup(c.g, e.node, 0);
      Listed(c.g, list) && exists ps :: Skips(c.g, a, e.node, list, ps, Settling(c, s, e)) && vs == Picked(list, ps)
  }

  lemma SettlingMoves(c: Config, s: St, e: Event) returns (vs: seq<nat>)
    requires Checked(c) && AtHead(c, s) && e.node < c.g.N() && s.state[e.node] == Running
    ensures Losers(c, s, e, vs) && forall i :: 0 <= i < |vs| ==> vs[i] < c.g.N()
    ensures var a := Absorb(c, s, e.node, e.result);
      a.trace == s.trace + EventMoves(c, s, e) && Settling(c, s, e).trace == a.trace + SkipMovesOf(a.state, vs)
  {
    assert Shape(c.g, s) && WellFormed(c.g);
    AbsorbTrace(c, s, e.node, e.result);
    var a := Absorb(c, s, e.node, e.result);
    hide AtHead, Absorb, Decide, WellFormed, Checked, Skips, Lineup, SkipJoiners, SuccessMove, FailMove, DecisionMove;
    if e.result.err == None {
      var ps := SkipOrder(c.g, a, e.node);
      vs := PickedMoves(c.g, a, e.node, Lineup(c.g, e.node, 0), ps, Settling(c, s, e));
    } else {
      vs := [];
      NoMoves(a.state);
      assert SkipMovesOf(a.state, vs) == [];
    }
  }

  lemma PickedMoves(g: Graph, a: St, w: nat, list: seq<nat>, ps: seq<nat>, t: St) returns (vs: seq<nat>)
    requires WellFormed(g) && Shape(g, a) && Listed(g, list) && Skips(g, a, w, list, ps, t)
    ensures (forall i :: 0 <= i < |ps| ==> ps[i] < |list|) && vs == Picked(list, ps)
    ensures forall i :: 0 <= i < |vs| ==> vs[i] < g.N()
    ensures t.trace == a.trace + SkipMovesOf(a.state, vs)
  {
    hide Loses, Without, GoneBefore;
    vs := Picked(list, ps);
    assert SkipMovesOf(a.state, vs) == SkipMoves(a.state, list, ps);
  }

  /** The parts of one pass, in the order in which they are logged. */
  datatype Parts = Parts(event: seq<Move>, skipped: seq<nat>, promoted: seq<nat>, dispatched: seq<nat>)

  /** Who moves in the pass from s for event e, besides the event's node. */
  ghost predicate PassParts(c: Config, s: St, e: Event, p: Parts)
    requires WellFormed(c.g) && Shape(c.g, s) && e.node < c.g.N()
  {
    && p.event == EventMoves(c, s, e)
    && (if s.state[e.node].IsTerminal() then p.skipped == [] && p.promoted == []
        else Losers(c, s, e, p.skipped) && Promotes(c.g, Settling(c, s, e).state, 0, p.promoted))
    && Increasing(p.dispatched)
    && forall v: nat :: v in p.dispatched <==> MayDispatch(c, Observed(c, s, e), v)
  }

  lemma PromotePart(g: Graph, s: St) returns (vs: seq<nat>)
    requires WellFormed(g) && Shape(g, s)
    ensures Promotes(g, s.state, 0, vs) && PromoteFrom(g, s, 0).trace == s.trace + PromoteMoves(vs)
  {
    vs := PromoteOrder(g, s, 0);
    hide PromoteFrom, PromoteMoves, Promotable;
  }

  lemma DispatchPart(c: Config, s: St) returns (vs: seq<nat>)
    requires WellFormed(c.g) && Shape(c.g, s) && s.inFlight >= 0
    ensures Increasing(vs) && forall v: nat :: v in vs <==> MayDispatch(c, s, v)
    ensures Schedule(c, Tick(s)).trace == s.trace + DispatchMoves(vs)
  {
    vs := ScheduleMeaning(c, Tick(s));
    SameSlots(c, s);
    hide Schedule, DispatchMoves, MayDispatch, Given;
  }

  lemma SameSlots(c: Config, s: St)
    requires Shape(c.g, s)
    ensures forall v: nat :: MayDispatch(c, Tick(s), v) <==> MayDispatch(c, s, v)
  {
  }

  lemma LatePass(c: Config, s: St, e: Event) returns (p: Parts)
    requires WellFormed(c.g) && Shape(c.g, s) && e.node < c.g.N() && s.state[e.node].IsTerminal()
    requires Observed(c, s, e).inFlight >= 0
    ensures PassParts(c, s, e, p) && PassTrace(c, s, e, p)
  {
    var o := Observed(c, s, e);
    LateTrace(c, s, e);
    NoMoves(s.state);
    hide Absorb, Schedule, Increasing, MayDispatch, SkipMovesOf, PromoteMoves, DispatchMoves, EventMoves, Observed;
    var dispatched := DispatchPart(c, o);
    p := Parts(EventMoves(c, s, e), [], [], dispatched);
    assert s.trace + [] + [] + [] + DispatchMoves(dispatched) == s.trace + DispatchMoves(dispatched);
  }

  lemma RunningPass(c: Config, s: St, e: Event) returns (p: Parts)
    requires Checked(c) && AtHead(c, s) && e.node < c.g.N() && s.state[e.node] == Running
    requires Observed(c, s, e).inFlight >= 0
    ensures Shape(c.g, s) && PassParts(c, s, e, p) && PassTrace(c, s, e, p)
  {
    assert Shape(c.g, s) && WellFormed(c.g);
    var o := Observed(c, s, e);
    hide AtHead, WellFormed, Checked, Absorb, Losers, Schedule, Increasing, MayDispatch, Promotes, SkipMovesOf,
      PromoteMoves, DispatchMoves, EventMoves, Settling, Observed;
    var dispatched := DispatchPart(c, o);
    var skipped := SettlingMoves(c, s, e);
    var promoted := PromotePart(c.g, Settling(c, s, e));
    SettlingPromoted(c, s, e);
    p := Parts(EventMoves(c, s, e), skipped, promoted, dispatched);
  }

  /** The trace behind the pass. */
  ghost predicate PassTrace(c: Config, s: St, e: Event, p: Parts)
    requires WellFormed(c.g) && Shape(c.g, s) && e.node < c.g.N()
  {
    var st := if s.state[e.node].IsTerminal() then s.state else Absorb(c, s, e.node, e.result).state;
    && (forall i :: 0 <= i < |p.skipped| ==> p.skipped[i] < c.g.N())
    && Handle(c, s, e).trace ==
         s.trace + p.event + SkipMovesOf(st, p.skipped) + PromoteMoves(p.promoted) + DispatchMoves(p.dispatched)
  }

  /** One pass logs the event, then the skips, then the promotions, then the dispatches. */
  lemma PassMoves(c: Config, s: St, e: Event) returns (p: Parts)
    requires Checked(c) && AtHead(c, s) && e.node in s.workers && e.node < c.g.N()
    ensures Shape(c.g, s) && PassParts(c, s, e, p) && PassTrace(c, s, e, p)
  {
    EventSource(c, s, e.node);
    ObservedInv(c, s, e);
    assert Shape(c.g, s) && WellFormed(c.g);
    ObservedFree(c, Observed(c, s, e));
    hide AtHead, WellFormed, Checked, Observed, PassParts, PassTrace;
    if s.state[e.node].IsTerminal() {
      p := LatePass(c, s, e);
    } else {
      p := RunningPass(c, s, e);
    }
  }

  lemma ObservedFree(c: Config, s: St)
    requires WellFormed(c.g) && Inv(c, s)
    ensures s.inFlight >= 0
  {
  }

  lemma LateTrace(c: Config, s: St, e: Event)
    requires WellFormed(c.g) && Shape(c.g, s) && e.node < c.g.N() && s.state[e.node].IsTerminal()
    ensures EventMoves(c, s, e) == [] && Observed(c, s, e).trace == s.trace
  {
  }

  lemma NoMoves(st: seq<NodeState>)
    ensures SkipMovesOf(st, []) == [] && PromoteMoves([]) == []
  {
  }

  lemma SettlingPromoted(c: Config, s: St, e: Event)
    requires WellFormed(c.g) && Shape(c.g, s) && e.node < c.g.N() && !s.state[e.node].IsTerminal()
    ensures Observed(c, s, e) == PromoteFrom(c.g, Settling(c, s, e), 0)
  {
    AbsorbEffect(c, s, e.node, e.result);
    hide Absorb, PromoteFrom, SkipJoiners;
  }

  // ---- in words -------------------------------------------------------------------------------------

  /** Entry e reports v's state change in these words. */
  ghost predicate Wrote(e: Wal.Entry, c: Config, v: nat, trigger: string, from: NodeState, to: NodeState,
                        payload: string)
  {
    && v < c.g.N() && e.runId == c.run && e.nodeId == c.g.nodes[v].id
    && e.trigger == trigger && e.from == from && e.to == to && e.payload == payload
  }

  /** From entry k on, the nodes vs are reported one after the other. */
  ghost predicate Block(es: seq<Wal.Entry>, c: Config, k: nat, vs: seq<nat>, trigger: string, from: NodeState,
                        to: NodeState)
  {
    k + |vs| <= |es| && forall i :: 0 <= i < |vs| ==> Wrote(es[k + i], c, vs[i], trigger, from, to, "")
  }

  /** The event of v, received in state s, is answered by the n entries from k on: a success by one; a
      failure by its kind and text, and then by what the budgets allow. */
  ghost predicate EventWritten(es: seq<Wal.Entry>, c: Config, s: St, e: Event, k: nat, n: nat)
    requires Shape(c.g, s) && e.node < c.g.N()
  {
    var v, r, a := e.node, e.result, s.attempt[e.node];
    && k + n <= |es|
    && if s.state[v] != Running then n == 0
       else
         match r.err
         case None => n == 1 && Wrote(es[k], c, v, "success", Running, Executed, "")
         case Some(text) =>
           && n == 2
           && Wrote(es[k], c, v, if r.retryable then "fail_retryable" else "fail_structural",
                    Running, FailedRetryable, text)
           && if r.retryable && a.retries < c.policy.maxRetries then
                Wrote(es[k + 1], c, v, "retry", FailedRetryable, Ready, "transient: retry")
              else if a.patches < c.policy.maxPatches then
                Wrote(es[k + 1], c, v, "patch", FailedRetryable, Ready, "patch + retry")
              else
                Wrote(es[k + 1], c, v, "replan_requested", FailedRetryable, Failed, "replan")
  }

  /** Skipped nodes are reported with the state they were in. */
  ghost predicate SkipsWritten(es: seq<Wal.Entry>, c: Config, k: nat, vs: seq<nat>, st: seq<NodeState>) {
    && k + |vs| <= |es|
    && forall i :: 0 <= i < |vs| ==>
         vs[i] < |st| && Wrote(es[k + i], c, vs[i], "skip", st[vs[i]], Skipped, "")
  }

  /** What the pass from s for event e appends to the log. */
  ghost predicate PassWritten(es: seq<Wal.Entry>, c: Config, s: St, e: Event, p: Parts, n: nat)
    requires Shape(c.g, s) && e.node < c.g.N()
  {
    var k := |s.trace|;
    var st := if s.state[e.node].IsTerminal() then s.state else Absorb(c, s, e.node, e.result).state;
    && EventWritten(es, c, s, e, k, n)
    && SkipsWritten(es, c, k + n, p.skipped, st)
    && Block(es, c, k + n + |p.skipped|, p.promoted, "deps_met", Pending, Ready)
    && Block(es, c, k + n + |p.skipped| + |p.promoted|, p.dispatched, "dispatch", Ready, Running)
    && |es| == k + n + |p.skipped| + |p.promoted| + |p.dispatched|
  }

  ghost predicate MovesInPlan(c: Config, t: seq<Move>) {
    forall i :: 0 <= i < |t| ==> t[i].node < c.g.N()
  }

  /** The words for the moves that come in blocks. */
  ghost predicate InWords(trigger: Trigger, text: string) {
    || (trigger == DepsMet && text == "deps_met")
    || (trigger == Traces.Dispatch && text == "dispatch")
    || (trigger == Cancel && text == "cancelled")
  }

  lemma EntryWritten(c: Config, t: seq<Move>, k: nat, v: nat, trigger: Trigger, text: string, from: NodeState,
                     to: NodeState)
    requires MovesInPlan(c, t) && k < |t| && t[k] == Move(v, from, to, trigger, "") && InWords(trigger, text)
    ensures Wrote(Render(c.g, c.run, t)[k], c, v, text, from, to, "")
  {
    WrittenAs(c.g, c.run, t, k);
    hide Render;
  }

  lemma BlockWritten(c: Config, t: seq<Move>, k: nat, vs: seq<nat>, moves: seq<Move>, trigger: Trigger, text: string,
                     from: NodeState, to: NodeState)
    requires MovesInPlan(c, t) && k + |vs| <= |t| && |moves| == |vs| && t[k..k + |vs|] == moves
    requires forall i :: 0 <= i < |vs| ==> moves[i] == Move(vs[i], from, to, trigger, "")
    requires InWords(trigger, text)
    ensures Block(Render(c.g, c.run, t), c, k, vs, text, from, to)
  {
    RenderSize(c, t);
    hide Render, Wrote, InWords;
    forall i | 0 <= i < |vs|
      ensures Wrote(Render(c.g, c.run, t)[k + i], c, vs[i], text, from, to, "")
    {
      assert t[k..k + |vs|][i] == t[k + i];
      EntryWritten(c, t, k + i, vs[i], trigger, text, from, to);
    }
  }

  lemma SkipBlock(c: Config, t: seq<Move>, k: nat, vs: seq<nat>, st: seq<NodeState>)
    requires MovesInPlan(c, t) && k + |vs| <= |t| && forall i :: 0 <= i < |vs| ==> vs[i] < |st|
    requires t[k..k + |vs|] == SkipMovesOf(st, vs)
    ensures SkipsWritten(Render(c.g, c.run, t), c, k, vs, st)
  {
    forall i | 0 <= i < |vs|
      ensures Wrote(Render(c.g, c.run, t)[k + i], c, vs[i], "skip", st[vs[i]], Skipped, "")
    {
      assert t[k..k + |vs|][i] == t[k + i];
      WrittenAs(c.g, c.run, t, k + i);
    }
  }

  lemma EventBlock(c: Config, t: seq<Move>, s: St, e: Event)
    requires MovesInPlan(c, t) && Shape(c.g, s) && e.node < c.g.N() && !s.attempt[e.node].replanned
    requires s.state[e.node] == Running || s.state[e.node].IsTerminal()
    requires var k, moves := |s.trace|, EventMoves(c, s, e); k + |moves| <= |t| && t[k..k + |moves|] == moves
    ensures EventWritten(Render(c.g, c.run, t), c, s, e, |s.trace|, |EventMoves(c, s, e)|)
  {
    var k, moves := |s.trace|, EventMoves(c, s, e);
    hide Render, MovesInPlan, EventWritten, Decide, SuccessMove, FailMove, DecisionMove;
    if s.state[e.node] != Running {
      NoEventBlock(c, t, s, e);
    } else if e.result.err == None {
      assert t[k] == moves[0];
      SuccessBlock(c, t, s, e);
    } else {
      assert t[k] == moves[0] && t[k + 1] == moves[1];
      FailureBlock(c, t, s, e);
    }
  }

  lemma NoEventBlock(c: Config, t: seq<Move>, s: St, e: Event)
    requires MovesInPlan(c, t) && Shape(c.g, s) && e.node < c.g.N() && s.state[e.node] != Running && |s.trace| <= |t|
    ensures EventWritten(Render(c.g, c.run, t), c, s, e, |s.trace|, 0)
  {
    RenderSize(c, t);
    hide Render;
  }

  lemma SuccessBlock(c: Config, t: seq<Move>, s: St, e: Event)
    requires MovesInPlan(c, t) && Shape(c.g, s) && e.node < c.g.N() && s.state[e.node] == Running
    requires e.result.err == None && |s.trace| < |t| && t[|s.trace|] == SuccessMove(e.node)
    ensures EventWritten(Render(c.g, c.run, t), c, s, e, |s.trace|, 1)
  {
    WrittenAs(c.g, c.run, t, |s.trace|);
    hide Render;
  }

  lemma FailureBlock(c: Config, t: seq<Move>, s: St, e: Event)
    requires MovesInPlan(c, t) && Shape(c.g, s) && e.node < c.g.N() && s.state[e.node] == Running
    requires e.result.err.Some? && |s.trace| + 2 <= |t| && t[|s.trace|] == FailMove(e.node, e.result)
    requires !s.attempt[e.node].replanned
    requires t[|s.trace| + 1] == DecisionMove(e.node, Decide(c.policy, s.attempt[e.node], e.result))
    ensures EventWritten(Render(c.g, c.run, t), c, s, e, |s.trace|, 2)
  {
    WrittenAs(c.g, c.run, t, |s.trace|);
    WrittenAs(c.g, c.run, t, |s.trace| + 1);
    hide Render;
  }

  /** t consists of a, b, c, d, e. */
  ghost predicate Sliced<T>(t: seq<T>, a: seq<T>, b: seq<T>, c: seq<T>, d: seq<T>, e: seq<T>) {
    && |t| == |a| + |b| + |c| + |d| + |e|
    && t[..|a|] == a && t[|a|..|a| + |b|] == b && t[|a| + |b|..|a| + |b| + |c|] == c
    && t[|a| + |b| + |c|..|a| + |b| + |c| + |d|] == d
    && t[|a| + |b| + |c| + |d|..|a| + |b| + |c| + |d| + |e|] == e
  }

  lemma FiveParts<T>(t: seq<T>, a: seq<T>, b: seq<T>, c: seq<T>, d: seq<T>, e: seq<T>)
    requires t == a + b + c + d + e
    ensures Sliced(t, a, b, c, d, e)
  {
  }

  lemma MovesSized(st: seq<NodeState>, p: Parts)
    requires forall i :: 0 <= i < |p.skipped| ==> p.skipped[i] < |st|
    ensures |SkipMovesOf(st, p.skipped)| == |p.skipped| && |PromoteMoves(p.promoted)| == |p.promoted|
    ensures |DispatchMoves(p.dispatched)| == |p.dispatched|
    ensures forall i :: 0 <= i < |p.promoted| ==>
      PromoteMoves(p.promoted)[i] == Move(p.promoted[i], Pending, Ready, DepsMet, "")
    ensures forall i :: 0 <= i < |p.dispatched| ==>
      DispatchMoves(p.dispatched)[i] == Move(p.dispatched[i], Ready, Running, Traces.Dispatch, "")
  {
  }

  lemma QuietText(c: Config, t: seq<Move>, s: St, st: seq<NodeState>, p: Parts)
    requires MovesInPlan(c, t) && forall i :: 0 <= i < |p.skipped| ==> p.skipped[i] < |st|
    requires Sliced(t, s.trace, p.event, SkipMovesOf(st, p.skipped), PromoteMoves(p.promoted),
                    DispatchMoves(p.dispatched))
    ensures var es, k := Render(c.g, c.run, t), |s.trace| + |p.event|;
      && SkipsWritten(es, c, k, p.skipped, st)
      && Block(es, c, k + |p.skipped|, p.promoted, "deps_met", Pending, Ready)
      && Block(es, c, k + |p.skipped| + |p.promoted|, p.dispatched, "dispatch", Ready, Running)
      && |es| == k + |p.skipped| + |p.promoted| + |p.dispatched|
  {
    MovesSized(st, p);
    var k, b, d := |s.trace| + |p.event|, PromoteMoves(p.promoted), DispatchMoves(p.dispatched);
    SkipBlock(c, t, k, p.skipped, st);
    hide Render, SkipsWritten, Block, SkipMovesOf, PromoteMoves, DispatchMoves;
    BlockWritten(c, t, k + |p.skipped|, p.promoted, b, DepsMet, "deps_met", Pending, Ready);
    BlockWritten(c, t, k + |p.skipped| + |p.promoted|, p.dispatched, d, Traces.Dispatch, "dispatch", Ready, Running);
    RenderSize(c, t);
  }

  lemma RenderSize(c: Config, t: seq<Move>)
    requires MovesInPlan(c, t)
    ensures |Render(c.g, c.run, t)| == |t|
  {
  }

  lemma PassText(c: Config, s: St, e: Event, p: Parts)
    requires WellFormed(c.g) && Shape(c.g, s) && e.node < c.g.N() && !s.attempt[e.node].replanned
    requires s.state[e.node] == Running || s.state[e.node].IsTerminal()
    requires p.event == EventMoves(c, s, e) && PassTrace(c, s, e, p) && MovesInPlan(c, Handle(c, s, e).trace)
    ensures PassWritten(Render(c.g, c.run, Handle(c, s, e).trace), c, s, e, p, |p.event|)
  {
    var t := Handle(c, s, e).trace;
    var st := if s.state[e.node].IsTerminal() then s.state else Absorb(c, s, e.node, e.result).state;
    assert (forall i :: 0 <= i < |p.skipped| ==> p.skipped[i] < |st|);
    assert t == s.trace + p.event + SkipMovesOf(st, p.skipped) + PromoteMoves(p.promoted) + DispatchMoves(p.dispatched);
    hide *;
    FiveParts(t, s.trace, p.event, SkipMovesOf(st, p.skipped), PromoteMoves(p.promoted), DispatchMoves(p.dispatched));
    QuietText(c, t, s, st, p);
    EventText(c, t, s, e, p, st);
    PassIs(Render(c.g, c.run, t), c, s, e, p, st);
  }

  lemma EventText(c: Config, t: seq<Move>, s: St, e: Event, p: Parts, st: seq<NodeState>)
    requires MovesInPlan(c, t) && Shape(c.g, s) && e.node < c.g.N() && !s.attempt[e.node].replanned
    requires s.state[e.node] == Running || s.state[e.node].IsTerminal()
    requires p.event == EventMoves(c, s, e) && forall i :: 0 <= i < |p.skipped| ==> p.skipped[i] < |st|
    requires Sliced(t, s.trace, p.event, SkipMovesOf(st, p.skipped), PromoteMoves(p.promoted),
                    DispatchMoves(p.dispatched))
    ensures EventWritten(Render(c.g, c.run, t), c, s, e, |s.trace|, |p.event|)
  {
    hide EventMoves, SkipMovesOf, PromoteMoves, DispatchMoves, Render, EventWritten;
    EventBlock(c, t, s, e);
  }

  lemma PassIs(es: seq<Wal.Entry>, c: Config, s: St, e: Event, p: Parts, st: seq<NodeState>)
    requires Shape(c.g, s) && e.node < c.g.N()
    requires st == if s.state[e.node].IsTerminal() then s.state else Absorb(c, s, e.node, e.result).state
    requires EventWritten(es, c, s, e, |s.trace|, |p.event|)
    requires var k := |s.trace| + |p.event|;
      && SkipsWritten(es, c, k, p.skipped, st)
      && Block(es, c, k + |p.skipped|, p.promoted, "deps_met", Pending, Ready)
      && Block(es, c, k + |p.skipped| + |p.promoted|, p.dispatched, "dispatch", Ready, Running)
      && |es| == k + |p.skipped| + |p.promoted| + |p.dispatched|
    ensures PassWritten(es, c, s, e, p, |p.event|)
  {
    hide EventWritten, SkipsWritten, Block, Absorb;
  }

  /** The log holds the rendered trace of s as this run's entries, whatever else it holds. */
  ghost predicate Holds(c: Config, s: St, log: seq<Wal.Entry>) {
    MovesInPlan(c, s.trace) && Wal.FilterRun(log, c.run) == Render(c.g, c.run, s.trace)
  }

  lemma ReplayedRender(c: Config, s: St, log: seq<Wal.Entry>)
    requires Holds(c, s, log)
    ensures Wal.Replayed(log, c.run) == Render(c.g, c.run, s.trace)
  {
    RenderedRun(c.g, c.run, s.trace);
  }

  lemma HeadFacts(c: Config, s: St, v: nat)
    requires WellFormed(c.g) && AtHead(c, s) && v in s.workers
    ensures v < c.g.N() && Shape(c.g, s) && (s.state[v] == Running || s.state[v] == Skipped)
    ensures s.state[v] == Running ==> !s.attempt[v].replanned
  {
    EventSource(c, s, v);
    assert CountedNode(c.policy, s.state[v], s.attempt[v], Launches(s.trace, v), Proj(s.trace, v));
  }

  /** The last pass of any run, read from the replayed log: the event's own entries, then the losers,
      then the promoted nodes, then the dispatched ones, in these words and in this order. */
  lemma PassLogged(c: Config, evs: seq<Event>, e: Event, log: seq<Wal.Entry>) returns (p: Parts)
    requires Checked(c) && Feasible(c, evs + [e]) && Holds(c, After(c, evs + [e]), log)
    ensures Feasible(c, evs) && e.node < c.g.N()
    ensures var s := After(c, evs);
      PassParts(c, s, e, p) && PassWritten(Wal.Replayed(log, c.run), c, s, e, p, |p.event|)
  {
    RunExtend(c, evs, e);
    RunAtHead(c, evs);
    ReplayedRender(c, After(c, evs + [e]), log);
    assert WellFormed(c.g);
    hide After, AtHead, Handle, Poll, Render, Checked, PassParts, PassTrace, PassWritten, Wal.Replayed, Feasible;
    p := PassOf(c, After(c, evs), e);
  }

  lemma PassOf(c: Config, s: St, e: Event) returns (p: Parts)
    requires Checked(c) && AtHead(c, s) && e.node in s.workers && e.node < c.g.N()
    requires MovesInPlan(c, Handle(c, s, e).trace)
    ensures Shape(c.g, s) && PassParts(c, s, e, p)
    ensures PassWritten(Render(c.g, c.run, Handle(c, s, e).trace), c, s, e, p, |p.event|)
  {
    HeadFacts(c, s, e.node);
    p := PassMoves(c, s, e);
    if s.state[e.node] == Running {
      PassText(c, s, e, p);
    } else {
      LateText(c, s, e, p);
    }
  }

  lemma LateText(c: Config, s: St, e: Event, p: Parts)
    requires WellFormed(c.g) && Shape(c.g, s) && e.node < c.g.N() && s.state[e.node] == Skipped
    requires PassParts(c, s, e, p) && PassTrace(c, s, e, p) && MovesInPlan(c, Handle(c, s, e).trace)
    ensures PassWritten(Render(c.g, c.run, Handle(c, s, e).trace), c, s, e, p, |p.event|)
  {
    var t := Handle(c, s, e).trace;
    NoMoves(s.state);
    assert p.event == [] && p.skipped == [] && p.promoted == [];
    hide Handle, Render, WellFormed, DispatchMoves, PromoteMoves, SkipMovesOf;
    assert s.trace + [] + [] + [] + DispatchMoves(p.dispatched) == s.trace + DispatchMoves(p.dispatched);
    LastBlock(c, s.trace, t, p.dispatched);
  }

  lemma LastBlock(c: Config, before: seq<Move>, t: seq<Move>, vs: seq<nat>)
    requires MovesInPlan(c, t) && t == before + DispatchMoves(vs)
    ensures |t| == |before| + |vs| && Block(Render(c.g, c.run, t), c, |before|, vs, "dispatch", Ready, Running)
  {
    assert t[|before|..|before| + |vs|] == DispatchMoves(vs);
    hide Render, Block;
    BlockWritten(c, t, |before|, vs, DispatchMoves(vs), Traces.Dispatch, "dispatch", Ready, Running);
  }

  // ---- the beginning and the end of a log -----------------------------------------------------------

  lemma StartMoves(c: Config) returns (entries: seq<nat>, dispatched: seq<nat>)
    requires WellFormed(c.g)
    ensures Increasing(entries) && forall v: nat :: v in entries <==> v < c.g.N() && c.g.preds[v] == []
    ensures Increasing(dispatched)
    ensures forall v: nat :: v in dispatched <==> MayDispatch(c, SeedFrom(c.g, Blank(c.g), 0), v)
    ensures Start(c).trace == PromoteMoves(entries) + DispatchMoves(dispatched)
  {
    var s := SeedFrom(c.g, Blank(c.g), 0);
    entries := SeedOrder(c.g, Blank(c.g), 0);
    assert [] + PromoteMoves(entries) == PromoteMoves(entries);
    assert s.trace == PromoteMoves(entries) && s.inFlight == 0;
    hide SeedFrom, Blank, WellFormed, MayDispatch, Increasing, PromoteMoves, DispatchMoves, Schedule;
    dispatched := DispatchPart(c, s);
  }

  /** A run begins with its entry nodes, in plan order, and the first dispatches. */
  lemma StartLogged(c: Config, log: seq<Wal.Entry>) returns (entries: seq<nat>, dispatched: seq<nat>)
    requires Checked(c) && Holds(c, Start(c), log)
    ensures Increasing(entries) && forall v: nat :: v in entries <==> v < c.g.N() && c.g.preds[v] == []
    ensures Increasing(dispatched)
    ensures forall v: nat :: v in dispatched <==> MayDispatch(c, SeedFrom(c.g, Blank(c.g), 0), v)
    ensures var es := Wal.Replayed(log, c.run);
      && Block(es, c, 0, entries, "deps_met", Pending, Ready)
      && Block(es, c, |entries|, dispatched, "dispatch", Ready, Running)
      && |es| == |entries| + |dispatched|
  {
    ReplayedRender(c, Start(c), log);
    hide Start, SeedFrom, Blank, MayDispatch, Increasing, Render, Block;
    entries, dispatched := StartMoves(c);
    StartText(c, Start(c).trace, entries, dispatched);
  }

  lemma StartText(c: Config, t: seq<Move>, entries: seq<nat>, dispatched: seq<nat>)
    requires MovesInPlan(c, t) && t == PromoteMoves(entries) + DispatchMoves(dispatched)
    ensures var es := Render(c.g, c.run, t);
      && Block(es, c, 0, entries, "deps_met", Pending, Ready)
      && Block(es, c, |entries|, dispatched, "dispatch", Ready, Running)
      && |es| == |entries| + |dispatched|
  {
    assert t[0..0 + |entries|] == PromoteMoves(entries);
    hide Block, Render;
    BlockWritten(c, t, 0, entries, PromoteMoves(entries), DepsMet, "deps_met", Pending, Ready);
    LastBlock(c, PromoteMoves(entries), t, dispatched);
    RenderSize(c, t);
  }

  /** The reporting nodes that were running, in the order of their reports. */
  function RunningOf(st: seq<NodeState>, vs: seq<nat>): (r: seq<nat>) {
    if |vs| == 0 then []
    else
      var rest, v := RunningOf(st, vs[..|vs| - 1]), vs[|vs| - 1];
      if v < |st| && st[v] == Running then rest + [v] else rest
  }

  function CancelMoves(vs: seq<nat>): seq<Move> {
    seq(|vs|, k requires 0 <= k < |vs| => Move(vs[k], Running, Cancelled, Cancel, ""))
  }

  lemma {:induction false} DrainMoves(c: Config, s: St, vs: seq<nat>)
    requires Checked(c) && Inv(c, s) && DrainFeasible(c.g, s, vs)
    ensures Drain(c.g, s, vs).trace == s.trace + CancelMoves(RunningOf(s.state, vs))
    decreases |vs|
  {
    assert Shape(c.g, s);
    hide CancelMoves, DrainOne, Checked, Inv;
    if |vs| == 0 {
      NoCancels(s.trace);
    } else {
      var init, v := vs[..|vs| - 1], vs[|vs| - 1];
      var t := Drain(c.g, s, init);
      DrainMoves(c, s, init);
      StillRunning(c, s, init, v);
      DrainUnfold(c.g, s, vs);
      assert RunningOf(s.state, vs) == RunningOf(s.state, init) + if s.state[v] == Running then [v] else [];
      hide Drain, DrainFeasible, RunningOf;
      DrainOneMoves(c.g, s.trace, t, RunningOf(s.state, init), v);
      assert RunningOf(s.state, init) + [] == RunningOf(s.state, init);
    }
  }

  lemma NoCancels(t: seq<Move>)
    ensures t + CancelMoves([]) == t
  {
  }

  /** A worker reports once: a node whose worker is left is as it was before the drain. */
  lemma StillRunning(c: Config, s: St, vs: seq<nat>, v: nat)
    requires Checked(c) && Inv(c, s) && DrainFeasible(c.g, s, vs) && v in Drain(c.g, s, vs).workers
    ensures v < c.g.N() && Drain(c.g, s, vs).state[v] == s.state[v] && (s.state[v] == Running || s.state[v] == Skipped)
  {
    DrainEffect(c, s, vs);
    DrainedSource(c, s, vs, v);
    assert s.workers[v] <= 1;
    assert multiset(vs)[v] == 0;
  }

  lemma DrainOneMoves(g: Graph, before: seq<Move>, t: St, cs: seq<nat>, v: nat)
    requires Shape(g, t) && v < g.N() && t.trace == before + CancelMoves(cs)
    requires t.state[v] == Running || t.state[v] == Skipped
    ensures DrainOne(g, t, v).trace == before + CancelMoves(if t.state[v] == Running then cs + [v] else cs)
  {
    assert CancelMoves(cs + [v]) == CancelMoves(cs) + [Move(v, Running, Cancelled, Cancel, "")];
    hide CancelMoves;
  }

  /** A cancelled run ends with the nodes that were running, in the order their workers reported. */
  lemma DrainLogged(c: Config, s: St, vs: seq<nat>, log: seq<Wal.Entry>)
    requires Checked(c) && Inv(c, s) && DrainFeasible(c.g, s, vs) && Holds(c, Drain(c.g, s, vs), log)
    ensures var es, cs := Wal.Replayed(log, c.run), RunningOf(s.state, vs);
      Block(es, c, |s.trace|, cs, "cancelled", Running, Cancelled) && |es| == |s.trace| + |cs|
  {
    DrainMoves(c, s, vs);
    ReplayedRender(c, Drain(c.g, s, vs), log);
    hide Inv, Drain, DrainFeasible, Checked, Render, Block, RunningOf;
    DrainText(c, s.trace, Drain(c.g, s, vs).trace, RunningOf(s.state, vs));
  }

  lemma DrainText(c: Config, before: seq<Move>, t: seq<Move>, cs: seq<nat>)
    requires MovesInPlan(c, t) && t == before + CancelMoves(cs)
    ensures var es := Render(c.g, c.run, t);
      Block(es, c, |before|, cs, "cancelled", Running, Cancelled) && |es| == |before| + |cs|
  {
    assert t[|before|..|before| + |cs|] == CancelMoves(cs);
    hide Render, Block;
    BlockWritten(c, t, |before|, cs, CancelMoves(cs), Cancel, "cancelled", Running, Cancelled);
    RenderSize(c, t);
  }
}
