/** Small plans and runs of them that show what the theorems leave open. */
module Instances {
  import opened Plans
  import opened Graphs
  import opened Recovery
  import opened Machine
  import opened Invariants
  import opened LoopHead
  import opened Failures
  import opened Skipping
  import opened Sketches
  import Budgets

  // ---- one success ------------------------------------------------------------------------------

  const OK := Result("", false, None)

  ghost predicate Wins(c: Config, s: St, w: nat)
    requires WellFormed(c.g)
  {
    AtHead(c, s) && w < c.g.N() && w in s.workers && s.state[w].Running?
  }

  /** The states once w has won and its losers are skipped. */
  ghost function Won(c: Config, s: St, w: nat): (r: seq<NodeState>)
    requires WellFormed(c.g) && Shape(c.g, s) && w < c.g.N()
    ensures |r| == c.g.N()
  {
    SkipJoiners(c.g, Absorb(c, s, w, OK), w, 0).state
  }

  ghost function Next(c: Config, s: St, w: nat): (r: seq<NodeState>)
    requires WellFormed(c.g) && Shape(c.g, s) && w < c.g.N()
    ensures |r| == c.g.N()
  {
    Handle(c, s, Event(w, OK)).state
  }

  /** Of the nodes that are not ready, only promotable ones change after that. */
  lemma NextNode(c: Config, s: St, w: nat, v: nat)
    requires Checked(c) && Wins(c, s, w) && v < c.g.N() && !Won(c, s, w)[v].Ready?
    requires Won(c, s, w)[v].Pending? ==> !DepsSatisfied(c.g, Won(c, s, w), v)
    ensures Next(c, s, w)[v] == Won(c, s, w)[v]
  {
    HandleAtHead(c, s, Event(w, OK));
    AbsorbEffect(c, s, w, OK);
    var t := SkipJoiners(c.g, Absorb(c, s, w, OK), w, 0);
    hide AtHead, Handle, Absorb, SkipJoiners, DepsSatisfied;
    PromoteEffect(c.g, t, 0, v);
  }

  lemma WinnerStays(c: Config, s: St, w: nat)
    requires Checked(c) && Wins(c, s, w)
    ensures Won(c, s, w)[w].Executed? && Next(c, s, w)[w].Executed?
  {
    AbsorbEffect(c, s, w, OK);
    LosersSkipped(c.g, Absorb(c, s, w, OK), w, 0, w);
    hide AtHead, Absorb, SkipJoiners, Next;
    NextNode(c, s, w, w);
  }

  lemma UnracedStays(c: Config, s: St, w: nat, v: nat)
    requires Checked(c) && Wins(c, s, w) && v < c.g.N() && v != w && !ShareAnyOf(c.g, w, 0, v)
    ensures Won(c, s, w)[v] == s.state[v]
    ensures s.state[v].Running? || s.state[v].IsTerminal() ==> Next(c, s, w)[v] == s.state[v]
  {
    AbsorbEffect(c, s, w, OK);
    LosersSkipped(c.g, Absorb(c, s, w, OK), w, 0, v);
    hide AtHead, Absorb, SkipJoiners, Next, ShareAnyOf;
    if s.state[v].Running? || s.state[v].IsTerminal() { NextNode(c, s, w, v); }
  }

  /** A running sibling that another join still needs keeps running. */
  lemma NeededStays(c: Config, s: St, w: nat, v: nat)
    requires Checked(c) && Wins(c, s, w) && v < c.g.N() && v != w && s.state[v].Running?
    requires StillNeeded(c.g, s.state[w := Executed], v) && NoSiblingBehind(c.g, s.state[w := Executed], w, v)
    ensures Next(c, s, w)[v].Running?
  {
    AbsorbEffect(c, s, w, OK);
    hide AtHead, Absorb, Next, StillNeeded, NoSiblingBehind;
    NeededKept(c.g, Absorb(c, s, w, OK), w, v);
    NextNode(c, s, w, v);
  }

  /** A pending all_of node waits for a running predecessor. */
  lemma BlockedStays(c: Config, s: St, w: nat, v: nat, u: nat)
    requires Checked(c) && Wins(c, s, w) && v < c.g.N() && u < c.g.N() && !ShareAnyOf(c.g, w, 0, v)
    requires s.state[v].Pending? && !c.g.IsAny(v) && u in c.g.preds[v] && Next(c, s, w)[u].Running?
    requires s.state[u].Running?
    ensures Next(c, s, w)[v].Pending?
  {
    UnracedStays(c, s, w, v);
    WonRunning(c, s, w, u);
    hide AtHead, Won, Next, ShareAnyOf;
    NextNode(c, s, w, v);
  }

  lemma WonRunning(c: Config, s: St, w: nat, u: nat)
    requires Checked(c) && Wins(c, s, w) && u < c.g.N() && Next(c, s, w)[u].Running? && s.state[u].Running?
    ensures Won(c, s, w)[u].Running?
  {
    AbsorbEffect(c, s, w, OK);
    LosersSkipped(c.g, Absorb(c, s, w, OK), w, 0, u);
    hide AtHead, Absorb, SkipJoiners, Next, ShareAnyOf;
    if !Won(c, s, w)[u].Running? { NextNode(c, s, w, u); }
  }

  lemma ExecutedStays(c: Config, s: St, w: nat, v: nat)
    requires Checked(c) && Wins(c, s, w) && v < c.g.N() && s.state[v].Executed?
    ensures Next(c, s, w)[v].Executed?
  {
    AbsorbEffect(c, s, w, OK);
    LosersSkipped(c.g, Absorb(c, s, w, OK), w, 0, v);
    hide AtHead, Absorb, SkipJoiners, Next, ShareAnyOf;
    NextNode(c, s, w, v);
  }

  lemma WinnersStay(c: Config, s: St, w: nat, j: nat)
    requires Checked(c) && Wins(c, s, w) && j < c.g.N() && HasExecutedPred(c.g, s.state, j)
    ensures HasExecutedPred(c.g, Next(c, s, w), j)
  {
    var u :| u in c.g.preds[j] && s.state[u].Executed?;
    hide AtHead, Next;
    ExecutedStays(c, s, w, u);
  }

  /** A pending candidate all of whose joins w resolves is skipped when w wins. */
  lemma RacerSkipped(c: Config, s: St, w: nat, k: nat)
    requires Checked(c) && Wins(c, s, w) && k < c.g.N() && s.state[k].Pending?
    requires c.g.succs[k] != [] && forall j :: j in c.g.succs[k] ==> c.g.IsAny(j) && j in c.g.succs[w]
    ensures Next(c, s, w)[k].Skipped?
  {
    var a := Absorb(c, s, w, OK);
    AbsorbEffect(c, s, w, OK);
    hide AtHead, Absorb, SkipJoiners, Next, ShareAnyOf, StillNeeded;
    ResolvedLoses(c.g, a.state, w, k);
    LosersSkipped(c.g, a, w, 0, k);
    NextNode(c, s, w, k);
  }

  lemma ResolvedLoses(g: Graph, st: seq<NodeState>, w: nat, k: nat)
    requires WellFormed(g) && |st| == g.N() && w < g.N() && k < g.N() && k != w
    requires st[w].Executed? && !st[k].IsTerminal()
    requires g.succs[k] != [] && forall j :: j in g.succs[k] ==> g.IsAny(j) && j in g.succs[w]
    ensures IsLoser(g, st, k, w) && ShareAnyOf(g, w, 0, k)
  {
    forall j | j in g.succs[k]
      ensures HasExecutedPred(g, st, j)
    {
      EdgeBothWays(g, w, j);
    }
    hide HasExecutedPred, ShareAnyOf;
    assert g.succs[k][0] in g.succs[k];
    ShareBy(g, w, k, g.succs[k][0]);
  }

  /** How a sibling is left behind: v runs on for k alone, and w, which does not race v, wins the
      joins that k is for. k is skipped, and v is not looked at. */
  lemma LeftBehind(c: Config, s: St, w: nat, v: nat, k: nat)
    requires Checked(c) && Wins(c, s, w) && v < c.g.N() && v != w && s.state[v].Running? && !ShareAnyOf(c.g, w, 0, v)
    requires k in c.g.succs[v] && s.state[k].Pending?
    requires forall j :: j in c.g.succs[v] && j != k ==> c.g.IsAny(j) && HasExecutedPred(c.g, s.state, j)
    requires !c.g.IsAny(k) && c.g.succs[k] != []
    requires forall j :: j in c.g.succs[k] ==> c.g.IsAny(j) && j in c.g.succs[w]
    ensures Next(c, s, w)[v].Running? && !StillNeeded(c.g, Next(c, s, w), v)
  {
    assert Shape(c.g, s) && WellFormed(c.g);
    hide Checked, Wins, Next, Won, ShareAnyOf, HasExecutedPred, WellFormed, Shape;
    RacerSkipped(c, s, w, k);
    UnracedStays(c, s, w, v);
    var t := Next(c, s, w);
    forall j | j in c.g.succs[v] && j != k
      ensures j < c.g.N() && c.g.IsAny(j) && HasExecutedPred(c.g, t, j)
    {
      WinnersStay(c, s, w, j);
    }
    NobodyNeeds(c.g, t, v, k);
  }

  lemma NobodyNeeds(g: Graph, st: seq<NodeState>, v: nat, k: nat)
    requires WellFormed(g) && |st| == g.N() && v < g.N() && k in g.succs[v] && !g.IsAny(k) && st[k].IsTerminal()
    requires forall j :: j in g.succs[v] && j != k ==> g.IsAny(j) && HasExecutedPred(g, st, j)
    ensures !StillNeeded(g, st, v)
  {
  }

  // ---- a sibling that stays because it also races elsewhere -------------------------------------

  /** One more winner of a run. */
  lemma NextWinner(c: Config, evs: seq<Event>, w: nat)
    requires Checked(c) && Feasible(c, evs) && w < c.g.N() && After(c, evs).state[w].Running?
    ensures Wins(c, After(c, evs), w) && Feasible(c, evs + [Event(w, OK)])
    ensures After(c, evs + [Event(w, OK)]).state == Next(c, After(c, evs), w)
  {
    hide AtHead, Checked, After, Feasible;
    MayReport(c, evs, w, OK);
  }

  lemma FirstWinner(c: Config, w: nat)
    requires Checked(c) && w < c.g.N() && Start(c).state[w].Running?
    ensures Wins(c, Start(c), w) && Feasible(c, [Event(w, OK)])
    ensures After(c, [Event(w, OK)]).state == Next(c, Start(c), w)
  {
    NoEvents(c);
    assert [] + [Event(w, OK)] == [Event(w, OK)];
    hide *;
    NextWinner(c, [], w);
  }

  /** 0 and 1 race for 3, and 1 races against 2 for 4. */
  function TwoRaces(): seq<(nat, nat)> {
    [(0, 3), (1, 3), (1, 4), (2, 4)]
  }

  lemma TwoRacesEdges()
    ensures EdgesWithin(5, TwoRaces())
    ensures forall u: nat, v: nat ::
      (u, v) in TwoRaces() <==> (v == 3 && (u == 0 || u == 1)) || (v == 4 && (u == 1 || u == 2))
    ensures forall v: nat :: HasInEdge(TwoRaces(), v) <==> v == 3 || v == 4
  {
    var es := TwoRaces();
    assert es[0] == (0, 3) && es[1] == (1, 3) && es[2] == (1, 4) && es[3] == (2, 4);
  }

  lemma TwoRacesPlan(g: Graph, jsonValid: string -> bool)
    requires g == Sketch(5, TwoRaces(), {3, 4})
    ensures PlanFor(g, 5, TwoRaces(), {3, 4}, jsonValid)
  {
    var es := TwoRaces();
    assert (0, 3) in es && (1, 3) in es && (1, 4) in es && (2, 4) in es by { TwoRacesEdges(); }
    assert Proper(5, es, {3, 4});
    hide Proper, PlanFor, TwoRaces, Sketch;
    SketchAccepted(5, es, {3, 4}, jsonValid);
  }

  lemma TwoRacesStart(c: Config, v: nat)
    requires c.g == Sketch(5, TwoRaces(), {3, 4}) && c.maxParallel >= 5 && v < 5
    ensures Checked(c) && Roomy(c) && WellFormed(c.g) && c.g.N() == 5
    ensures Start(c).state[v] == if v == 3 || v == 4 then Pending else Running
  {
    TwoRacesEdges();
    SketchReady(c, 5, TwoRaces(), {3, 4});
    assert WellFormed(c.g);
    hide *;
    SketchStart(c, 5, TwoRaces(), {3, 4}, v);
  }

  /** 1 is still needed when 0 has won: 4 has no winner. */
  lemma OneIsNeeded(g: Graph, st: seq<NodeState>)
    requires g == Sketch(5, TwoRaces(), {3, 4}) && WellFormed(g) && |st| == 5
    requires !st[1].Executed? && !st[2].Executed?
    ensures StillNeeded(g, st, 1) && NoSiblingBehind(g, st, 0, 1)
  {
    var es := TwoRaces();
    TwoRacesEdges();
    hide TwoRaces, Sketch, WellFormed, StillNeeded, NoSiblingBehind, EdgesWithin, HasInEdge;
    assert NeededBy(es, {3, 4}, st, 1, 4);
    SketchNeeded(5, es, {3, 4}, st, 1);
    SketchBehind(5, es, {3, 4}, st, 0, 1);
  }

  lemma OneStays(c: Config, s: St)
    requires Checked(c) && c.g == Sketch(5, TwoRaces(), {3, 4}) && Wins(c, s, 0)
    requires s.state[1].Running? && s.state[2].Running?
    ensures c.g.N() == 5 && c.g.IsAny(3) && 1 in c.g.preds[3]
    ensures HasExecutedPred(c.g, Next(c, s, 0), 3) && Next(c, s, 0)[1].Running?
  {
    TwoRacesEdges();
    SketchEdge(5, TwoRaces(), {3, 4}, 0, 3);
    SketchEdge(5, TwoRaces(), {3, 4}, 1, 3);
    assert WellFormed(c.g) && Shape(c.g, s);
    hide Checked, Wins, Next, StillNeeded, NoSiblingBehind, TwoRaces, Sketch, WellFormed, HasInEdge, EdgesWithin;
    OneIsNeeded(c.g, s.state[0 := Executed]);
    NeededStays(c, s, 0, 1);
    WinnerStays(c, s, 0);
  }

  /** v still runs although its join j has a winner. */
  ghost predicate RunsOn(c: Config, evs: seq<Event>, v: nat, j: nat) {
    && Checked(c) && RunsAfter(c, evs, v) && j < c.g.N() && c.g.IsAny(j) && v in c.g.preds[j]
    && HasExecutedPred(c.g, After(c, evs).state, j)
  }

  lemma ItRunsOn(c: Config, evs: seq<Event>, v: nat, j: nat)
    requires Checked(c) && Feasible(c, evs) && v < c.g.N() && After(c, evs).state[v].Running?
    requires j < c.g.N() && c.g.IsAny(j) && v in c.g.preds[j] && HasExecutedPred(c.g, After(c, evs).state, j)
    ensures RunsOn(c, evs, v, j)
  {
    hide After, Feasible, Checked;
  }

  /** When 0 wins, 1 stays: it may still win the other race. */
  lemma SiblingMayStay(c: Config, jsonValid: string -> bool)
    requires c.g == Sketch(5, TwoRaces(), {3, 4}) && c.maxParallel >= 5
    ensures RunsOn(c, [Event(0, OK)], 1, 3)
    ensures PlanFor(c.g, 5, TwoRaces(), {3, 4}, jsonValid)
  {
    hide *;
    TwoRacesPlan(c.g, jsonValid);
    TwoRacesStart(c, 0);
    TwoRacesStart(c, 1);
    TwoRacesStart(c, 2);
    FirstWinner(c, 0);
    OneStays(c, Start(c));
    ItRunsOn(c, [Event(0, OK)], 1, 3);
  }

  // ---- a sibling that is left behind ------------------------------------------------------------

  /** 0 and 1 race for 2; 1 also feeds the all_of node 3, which races 4 for 5. */
  function RaceBehindRace(): seq<(nat, nat)> {
    [(0, 2), (1, 2), (1, 3), (3, 5), (4, 5)]
  }

  lemma RaceBehindRaceEdges()
    ensures EdgesWithin(6, RaceBehindRace())
    ensures forall u: nat, v: nat ::
      (u, v) in RaceBehindRace() <==>
      (v == 2 && (u == 0 || u == 1)) || (v == 3 && u == 1) || (v == 5 && (u == 3 || u == 4))
    ensures forall v: nat :: HasInEdge(RaceBehindRace(), v) <==> v == 2 || v == 3 || v == 5
  {
    var es := RaceBehindRace();
    assert es[0] == (0, 2) && es[1] == (1, 2) && es[2] == (1, 3) && es[3] == (3, 5) && es[4] == (4, 5);
  }

  lemma RaceBehindRacePlan(g: Graph, jsonValid: string -> bool)
    requires g == Sketch(6, RaceBehindRace(), {2, 5})
    ensures PlanFor(g, 6, RaceBehindRace(), {2, 5}, jsonValid)
  {
    var es := RaceBehindRace();
    assert (0, 2) in es && (1, 2) in es && (3, 5) in es && (4, 5) in es by { RaceBehindRaceEdges(); }
    assert Proper(6, es, {2, 5});
    hide Proper, PlanFor, RaceBehindRace, Sketch;
    SketchAccepted(6, es, {2, 5}, jsonValid);
  }

  lemma RaceBehindRaceStart(c: Config, v: nat)
    requires c.g == Sketch(6, RaceBehindRace(), {2, 5}) && c.maxParallel >= 6 && v < 6
    ensures Checked(c) && Roomy(c) && WellFormed(c.g) && c.g.N() == 6
    ensures Start(c).state[v] == if v == 2 || v == 3 || v == 5 then Pending else Running
  {
    RaceBehindRaceEdges();
    SketchReady(c, 6, RaceBehindRace(), {2, 5});
    assert WellFormed(c.g);
    hide *;
    SketchStart(c, 6, RaceBehindRace(), {2, 5}, v);
  }

  /** 1 is needed by 3 as long as 3 is unfinished, and 3 does not race 0. */
  lemma OneIsNeededBehind(g: Graph, st: seq<NodeState>)
    requires g == Sketch(6, RaceBehindRace(), {2, 5}) && WellFormed(g) && |st| == 6 && st[3].Pending?
    ensures StillNeeded(g, st, 1) && NoSiblingBehind(g, st, 0, 1)
    ensures !ShareAnyOf(g, 0, 0, 3) && !ShareAnyOf(g, 0, 0, 4) && !ShareAnyOf(g, 4, 0, 1)
  {
    var es := RaceBehindRace();
    RaceBehindRaceEdges();
    hide RaceBehindRace, Sketch, WellFormed, StillNeeded, NoSiblingBehind, EdgesWithin, HasInEdge, ShareAnyOf;
    assert NeededBy(es, {2, 5}, st, 1, 3);
    SketchNeeded(6, es, {2, 5}, st, 1);
    SketchBehind(6, es, {2, 5}, st, 0, 1);
    SketchUnshared(6, es, {2, 5}, 0, 3);
    SketchUnshared(6, es, {2, 5}, 0, 4);
    SketchUnshared(6, es, {2, 5}, 4, 1);
  }

  lemma RaceBehindRaceNeighbours(g: Graph)
    requires g == Sketch(6, RaceBehindRace(), {2, 5})
    ensures g.N() == 6 && g.IsAny(2) && !g.IsAny(3) && g.IsAny(5)
    ensures 0 in g.preds[2] && 1 in g.preds[2] && 1 in g.preds[3]
    ensures forall j :: j in g.succs[1] <==> j == 2 || j == 3
    ensures forall j :: j in g.succs[3] <==> j == 5
    ensures 5 in g.succs[4]
  {
    var es := RaceBehindRace();
    RaceBehindRaceEdges();
    hide RaceBehindRace, HasInEdge, Sketch;
    SketchSuccs(6, es, {2, 5}, 1);
    SketchSuccs(6, es, {2, 5}, 3);
    hide EdgesWithin;
    SketchEdge(6, es, {2, 5}, 0, 2);
    SketchEdge(6, es, {2, 5}, 1, 2);
    SketchEdge(6, es, {2, 5}, 1, 3);
    SketchEdge(6, es, {2, 5}, 4, 5);
  }

  /** w wins: v stays for k, which stays blocked behind v; u does not race w. */
  lemma StaysFor(c: Config, s: St, w: nat, v: nat, k: nat, u: nat)
    requires Checked(c) && Wins(c, s, w) && v < c.g.N() && k < c.g.N() && u < c.g.N() && v != w && u != w
    requires s.state[v].Running? && s.state[k].Pending? && s.state[u].Running?
    requires StillNeeded(c.g, s.state[w := Executed], v) && NoSiblingBehind(c.g, s.state[w := Executed], w, v)
    requires !c.g.IsAny(k) && v in c.g.preds[k] && !ShareAnyOf(c.g, w, 0, k) && !ShareAnyOf(c.g, w, 0, u)
    ensures Next(c, s, w)[w].Executed?
    ensures Next(c, s, w)[v].Running? && Next(c, s, w)[k].Pending? && Next(c, s, w)[u].Running?
  {
    hide AtHead, Next, Won, StillNeeded, NoSiblingBehind, ShareAnyOf;
    WinnerStays(c, s, w);
    NeededStays(c, s, w, v);
    UnracedStays(c, s, w, u);
    BlockedStays(c, s, w, k, v);
  }

  lemma BehindFirst(c: Config, s: St)
    requires Checked(c) && c.g == Sketch(6, RaceBehindRace(), {2, 5}) && Wins(c, s, 0) && c.g.N() == 6
    requires WellFormed(c.g) && Shape(c.g, s)
    requires s.state[1].Running? && s.state[3].Pending? && s.state[4].Running?
    ensures HasExecutedPred(c.g, Next(c, s, 0), 2)
    ensures Next(c, s, 0)[1].Running? && Next(c, s, 0)[3].Pending? && Next(c, s, 0)[4].Running?
  {
    assert |s.state| == 6;
    hide *;
    RaceBehindRaceNeighbours(c.g);
    OneIsNeededBehind(c.g, s.state[0 := Executed]);
    StaysFor(c, s, 0, 1, 3, 4);
    WinnerOf(c.g, Next(c, s, 0), 0, 2);
  }

  lemma WinnerOf(g: Graph, st: seq<NodeState>, u: nat, j: nat)
    requires WellFormed(g) && |st| == g.N() && j < g.N() && u in g.preds[j] && st[u].Executed?
    ensures HasExecutedPred(g, st, j)
  {
  }

  /** Then 4 wins: 3 is skipped, and 1 runs on although nothing needs it. */
  lemma BehindSecond(c: Config, s: St)
    requires Checked(c) && c.g == Sketch(6, RaceBehindRace(), {2, 5}) && Wins(c, s, 4) && c.g.N() == 6
    requires WellFormed(c.g) && Shape(c.g, s)
    requires s.state[1].Running? && s.state[3].Pending? && HasExecutedPred(c.g, s.state, 2)
    ensures HasExecutedPred(c.g, Next(c, s, 4), 2) && 1 in c.g.preds[2]
    ensures Next(c, s, 4)[1].Running? && !StillNeeded(c.g, Next(c, s, 4), 1)
  {
    assert |s.state| == 6;
    hide *;
    RaceBehindRaceNeighbours(c.g);
    OneIsNeededBehind(c.g, s.state);
    assert 5 in c.g.succs[3] && 3 in c.g.succs[1];
    assert c.g.succs[3] != [];
    LeftBehind(c, s, 4, 1, 3);
    WinnersStay(c, s, 4, 2);
  }

  /** A sibling is not looked at again: after 0 and 4 have won, 1 is an unfinished candidate of a
      join that has a winner, no join needs it, and it runs on. */
  lemma SiblingNotRevisited(c: Config, jsonValid: string -> bool)
    requires c.g == Sketch(6, RaceBehindRace(), {2, 5}) && c.maxParallel >= 6
    ensures RunsOn(c, [Event(0, OK), Event(4, OK)], 1, 2)
    ensures !StillNeeded(c.g, After(c, [Event(0, OK), Event(4, OK)]).state, 1) && !Decoupled(c.g)
    ensures PlanFor(c.g, 6, RaceBehindRace(), {2, 5}, jsonValid)
  {
    hide *;
    RaceBehindRacePlan(c.g, jsonValid);
    RaceBehindRaceStart(c, 0);
    RaceBehindRaceStart(c, 1);
    RaceBehindRaceStart(c, 3);
    RaceBehindRaceStart(c, 4);
    FirstWinner(c, 0);
    BehindFirst(c, Start(c));
    assert [Event(0, OK)] + [Event(4, OK)] == [Event(0, OK), Event(4, OK)];
    NextWinner(c, [Event(0, OK)], 4);
    BehindSecond(c, After(c, [Event(0, OK)]));
    RaceBehindRaceNeighbours(c.g);
    ItRunsOn(c, [Event(0, OK), Event(4, OK)], 1, 2);
    BehindCoupled(c.g);
  }

  lemma BehindCoupled(g: Graph)
    requires g == Sketch(6, RaceBehindRace(), {2, 5}) && WellFormed(g)
    ensures !Decoupled(g)
  {
    RaceBehindRaceNeighbours(g);
    assert 2 in g.succs[1] && 3 in g.succs[1] && 5 in g.succs[3];
    hide RaceBehindRace, Sketch, WellFormed;
    NotDecoupled(g, 1, 2, 3, 5);
  }

  lemma NotDecoupled(g: Graph, v: nat, j: nat, x: nat, l: nat)
    requires WellFormed(g) && v < g.N() && x < g.N() && j in g.succs[v] && g.IsAny(j)
    requires x in g.succs[v] && !g.IsAny(x) && l in g.succs[x] && g.IsAny(l)
    ensures !Decoupled(g)
  {
    assert FeedsAnyOf(g, v) && FeedsAnyOf(g, x);
  }

  // ---- a retry that the node's budget forbids ---------------------------------------------------

  /** v has retried more often than its RetryBudget says. */
  ghost predicate OverBudget(c: Config, evs: seq<Event>, v: nat) {
    && Checked(c) && Feasible(c, evs) && v < c.g.N()
    && After(c, evs).attempt[v].retries > c.g.nodes[v].retryBudget
  }

  lemma OneNode(c: Config, jsonValid: string -> bool)
    requires c.g == Sketch(1, [], {}) && c.maxParallel >= 1
    ensures PlanFor(c.g, 1, [], {}, jsonValid) && Checked(c) && c.g.N() == 1 && c.g.nodes[0].retryBudget == 0
    ensures Start(c).state[0].Running?
  {
    SketchAccepted(1, [], {}, jsonValid);
    SketchReady(c, 1, [], {});
    hide Checked, Roomy, Start, WellFormed, PlanFor;
    SketchStart(c, 1, [], {}, 0);
  }

  /** One node with RetryBudget 0, and MaxRetries 1: the first transient failure is retried. */
  lemma ZeroBudgetRetried(c: Config, jsonValid: string -> bool)
    requires c.g == Sketch(1, [], {}) && c.maxParallel >= 1 && c.policy == Policy(1, 0)
    ensures OverBudget(c, [Event(0, TRANSIENT)], 0)
    ensures PlanFor(c.g, 1, [], {}, jsonValid)
  {
    OneNode(c, jsonValid);
    StartRuns(c, 0);
    FirstRetry(c, 0);
  }

  lemma FirstRetry(c: Config, v: nat)
    requires Checked(c) && RunsAfter(c, [], v) && After(c, []).attempt[v] == FRESH
    requires c.policy.RetryCap() >= 1 && v < c.g.N() && c.g.nodes[v].retryBudget == 0
    ensures OverBudget(c, [Event(v, TRANSIENT)], v)
  {
    hide After, Checked, Feasible;
    Budgets.BudgetIgnored(c, [], v, TRANSIENT);
    assert [] + [Event(v, TRANSIENT)] == [Event(v, TRANSIENT)];
  }

  // ---- a run that does not finish every node ----------------------------------------------------

  function Chain(): seq<(nat, nat)> {
    [(0, 1)]
  }

  lemma ChainPlan(c: Config, jsonValid: string -> bool)
    requires c.g == Sketch(2, Chain(), {}) && c.maxParallel >= 2
    ensures PlanFor(c.g, 2, Chain(), {}, jsonValid) && Checked(c) && Roomy(c)
    ensures Start(c).state[0].Running? && Start(c).state[1].Pending? && c.g.N() == 2 && c.g.preds[1] != []
  {
    var es := Chain();
    assert es[0] == (0, 1) && !HasInEdge(es, 0) && HasInEdge(es, 1);
    assert Proper(2, es, {}) && EdgesWithin(2, es);
    SketchEntry(2, es, {}, 1);
    hide Chain, HasInEdge, Proper, EdgesWithin;
    SketchAccepted(2, es, {}, jsonValid);
    SketchReady(c, 2, es, {});
    SketchStart(c, 2, es, {}, 0);
    SketchStart(c, 2, es, {}, 1);
  }

  /** The run is over and v is pending. */
  ghost predicate LeftPending(c: Config, evs: seq<Event>, v: nat) {
    Checked(c) && Returned(c, evs) && v < c.g.N() && After(c, evs).state[v].Pending?
  }

  /** 0 feeds 1 and fails with nothing to spend: the run returns, and 1 is pending for ever. */
  lemma PendingForever(c: Config, jsonValid: string -> bool)
    requires c.g == Sketch(2, Chain(), {}) && c.maxParallel >= 2 && c.policy == Policy(0, 0)
    ensures LeftPending(c, [Event(0, TRANSIENT)], 1)
    ensures PlanFor(c.g, 2, Chain(), {}, jsonValid)
  {
    ChainPlan(c, jsonValid);
    hide *;
    StartRuns(c, 0);
    ChainRun(c);
  }

  lemma ChainRun(c: Config)
    requires Checked(c) && RunsAfter(c, [], 0) && c.g.N() == 2 && c.g.preds[1] != [] && c.policy == Policy(0, 0)
    requires Start(c).state[0].Running? && Start(c).state[1].Pending?
    ensures LeftPending(c, [Event(0, TRANSIENT)], 1)
  {
    var e := Event(0, TRANSIENT);
    NoEvents(c);
    assert [] + [e] == [e];
    MayReport(c, [], 0, TRANSIENT);
    hide After, Start, Feasible, AtHead, Handle, Poll;
    ChainFails(c, Start(c));
    ChainReturns(c, [e]);
  }

  lemma ChainFails(c: Config, s: St)
    requires Checked(c) && AtHead(c, s) && c.g.N() == 2 && c.g.preds[1] != [] && c.policy == Policy(0, 0)
    requires 0 in s.workers && s.state[0].Running? && s.state[1].Pending?
    ensures var st := Handle(c, s, Event(0, TRANSIENT)).state; st[0].Failed? && st[1].Pending?
  {
    assert Shape(c.g, s) && WellFormed(c.g);
    hide *;
    ChainAbsorbs(c, s);
    FailureObserved(c, s, 0, 0);
    FailureObserved(c, s, 0, 1);
    HandleAtHead(c, s, Event(0, TRANSIENT));
    ChainLaunches(Observed(c, s, Event(0, TRANSIENT)).state, Handle(c, s, Event(0, TRANSIENT)).state);
  }

  lemma ChainAbsorbs(c: Config, s: St)
    requires WellFormed(c.g) && Shape(c.g, s) && c.g.N() == 2 && c.g.preds[1] != [] && c.policy == Policy(0, 0)
    requires s.state[0].Running? && s.state[1].Pending?
    ensures !s.state[0].IsTerminal()
    ensures var st := Absorb(c, s, 0, TRANSIENT).state; st[0].Failed? && st[1].Pending? && !DepsSatisfied(c.g, st, 1)
  {
    AbsorbEffect(c, s, 0, TRANSIENT);
    BrokeFails(c, s, 0);
    hide Absorb, DepsSatisfied;
    Unpromotable(c.g, Absorb(c, s, 0, TRANSIENT).state, 1);
  }

  lemma ChainLaunches(st: seq<NodeState>, st': seq<NodeState>)
    requires |st| == 2 && OnlyLaunched(st, st') && st[0].Failed? && st[1].Pending?
    ensures |st'| == 2 && st'[0].Failed? && st'[1].Pending?
  {
  }

  lemma BrokeFails(c: Config, s: St, v: nat)
    requires Shape(c.g, s) && v < c.g.N() && c.policy == Policy(0, 0)
    ensures Absorb(c, s, v, TRANSIENT).state[v].Failed?
  {
  }

  lemma Unpromotable(g: Graph, st: seq<NodeState>, v: nat)
    requires WellFormed(g) && |st| == g.N() && v < g.N() && g.preds[v] != []
    requires forall u :: 0 <= u < g.N() ==> !st[u].IsTerminalSuccess()
    ensures !DepsSatisfied(g, st, v)
  {
    assert g.preds[v][0] in g.preds[v];
  }

  lemma ChainReturns(c: Config, evs: seq<Event>)
    requires Checked(c) && Feasible(c, evs) && c.g.N() == 2
    requires After(c, evs).state[0].Failed? && After(c, evs).state[1].Pending?
    ensures Returned(c, evs)
  {
    hide After, Poll, AtHead;
    RunAtHead(c, evs);
    ChainStops(c, After(c, evs));
  }

  lemma ChainStops(c: Config, s: St)
    requires Checked(c) && AtHead(c, s) && c.g.N() == 2 && s.state[0].Failed? && s.state[1].Pending?
    ensures Poll(c, s).Stop?
  {
    NobodyWorks(c, s);
    PollIsQuiet(c, s);
    hide AtHead, Poll;
  }

  lemma NobodyWorks(c: Config, s: St)
    requires WellFormed(c.g) && AtHead(c, s)
    requires forall v :: 0 <= v < c.g.N() ==> !s.state[v].Running? && !s.state[v].Skipped?
    ensures s.inFlight == 0
  {
    assert s.workers == multiset{};
  }
}
