/** The loop's own moves between two events, one at a time. Promoting, skipping, dispatching
    and counting a round are the four quiet steps; every helper of the loop is a sequence of
    them. An invariant therefore has to be checked for four steps and for one event. */
module Steps {
  import opened Graphs
  import opened Machine

  datatype Step =
    | Promote(v: nat)
    | Launch(v: nat)
    | SkipLoser(v: nat, joiner: nat, winner: nat)
    | Round

  ghost predicate Enabled(c: Config, s: St, a: Step)
    requires WellFormed(c.g) && Shape(c.g, s)
  {
    match a
    case Promote(v) => v < c.g.N() && s.state[v].Pending? && DepsSatisfied(c.g, s.state, v)
    case Launch(v) =>
      && v < c.g.N() && s.state[v].Ready? && s.inFlight < c.maxParallel
      && !DestructiveRunning(c.g, s.state) && (c.g.IsDestructive(v) ==> s.inFlight == 0)
    case SkipLoser(v, j, w) =>
      && v < c.g.N() && j < c.g.N() && w < c.g.N()
      && c.g.IsAny(j) && v in c.g.preds[j] && w in c.g.preds[j] && s.state[w].Executed?
      && IsLoser(c.g, s.state, v, w)
    case Round => true
  }

  ghost function Do(c: Config, s: St, a: Step): (t: St)
    requires WellFormed(c.g) && Shape(c.g, s) && Enabled(c, s, a)
    ensures Shape(c.g, t)
  {
    match a
    case Promote(v) => PromoteOne(c.g, s, v)
    case Launch(v) => LaunchOne(c.g, s, v)
    case SkipLoser(v, _, _) => SkipOne(c.g, s, v)
    case Round => Tick(s)
  }

  ghost predicate Follows(c: Config, s: St, acts: seq<Step>, t: St)
    requires WellFormed(c.g) && Shape(c.g, s)
    decreases |acts|
  {
    if |acts| == 0 then s == t
    else Enabled(c, s, acts[0]) && Follows(c, Do(c, s, acts[0]), acts[1..], t)
  }

  lemma {:induction false} FollowsThen(c: Config, s: St, a: seq<Step>, t: St, b: seq<Step>, u: St)
    requires WellFormed(c.g) && Shape(c.g, s) && Shape(c.g, t)
    requires Follows(c, s, a, t) && Follows(c, t, b, u)
    ensures Follows(c, s, a + b, u)
    decreases |a|
  {
    if |a| == 0 {
      assert a + b == b;
    } else {
      FollowsThen(c, Do(c, s, a[0]), a[1..], t, b, u);
      assert (a + b)[1..] == a[1..] + b;
    }
  }

  lemma FollowsFirst(c: Config, s: St, a: Step, b: seq<Step>, u: St)
    requires WellFormed(c.g) && Shape(c.g, s)
    requires Enabled(c, s, a) && Follows(c, Do(c, s, a), b, u)
    ensures Follows(c, s, [a] + b, u)
  {
    assert ([a] + b)[1..] == b;
  }

  lemma FollowsOne(c: Config, s: St, a: Step)
    requires WellFormed(c.g) && Shape(c.g, s) && Enabled(c, s, a)
    ensures Follows(c, s, [a], Do(c, s, a))
  {
    assert [a][1..] == [];
  }

  // ---- every helper of the loop is a sequence of quiet steps ------------------------------

  lemma {:induction false} PromoteSteps(c: Config, s: St, i: nat) returns (acts: seq<Step>)
    requires WellFormed(c.g) && Shape(c.g, s) && i <= c.g.N()
    ensures Follows(c, s, acts, PromoteFrom(c.g, s, i))
    decreases c.g.N() - i
  {
    if i == c.g.N() {
      acts := [];
    } else if s.state[i].Pending? && DepsSatisfied(c.g, s.state, i) {
      acts := PromoteSteps(c, PromoteOne(c.g, s, i), i + 1);
      FollowsFirst(c, s, Promote(i), acts, PromoteFrom(c.g, s, i));
      acts := [Promote(i)] + acts;
    } else {
      acts := PromoteSteps(c, s, i + 1);
    }
  }

  lemma {:induction false} SeedSteps(c: Config, s: St, i: nat) returns (acts: seq<Step>)
    requires WellFormed(c.g) && Shape(c.g, s) && i <= c.g.N()
    requires forall v :: i <= v < c.g.N() ==> s.state[v].Pending?
    ensures Follows(c, s, acts, SeedFrom(c.g, s, i))
    decreases c.g.N() - i
  {
    if i == c.g.N() {
      acts := [];
    } else if c.g.preds[i] == [] {
      acts := SeedSteps(c, PromoteOne(c.g, s, i), i + 1);
      FollowsFirst(c, s, Promote(i), acts, SeedFrom(c.g, s, i));
      acts := [Promote(i)] + acts;
    } else {
      acts := SeedSteps(c, s, i + 1);
    }
  }

  lemma {:induction false} SkipCandsSteps(c: Config, s: St, w: nat, j: nat, k: nat) returns (acts: seq<Step>)
    requires WellFormed(c.g) && Shape(c.g, s) && j < c.g.N() && k <= |c.g.preds[j]| && w < c.g.N()
    requires c.g.IsAny(j) && w in c.g.preds[j] && s.state[w].Executed?
    ensures Follows(c, s, acts, SkipCands(c.g, s, w, j, k))
    ensures SkipCands(c.g, s, w, j, k).state[w].Executed?
    decreases |c.g.preds[j]| - k
  {
    if k == |c.g.preds[j]| {
      acts := [];
    } else {
      var v := c.g.preds[j][k];
      assert v in c.g.preds[j];
      if IsLoser(c.g, s.state, v, w) {
        acts := SkipCandsSteps(c, SkipOne(c.g, s, v), w, j, k + 1);
        FollowsFirst(c, s, SkipLoser(v, j, w), acts, SkipCands(c.g, s, w, j, k));
        acts := [SkipLoser(v, j, w)] + acts;
      } else {
        acts := SkipCandsSteps(c, s, w, j, k + 1);
      }
    }
  }

  lemma {:induction false} SkipJoinersSteps(c: Config, s: St, w: nat, k: nat) returns (acts: seq<Step>)
    requires WellFormed(c.g) && Shape(c.g, s) && w < c.g.N() && k <= |c.g.succs[w]|
    requires s.state[w].Executed?
    ensures Follows(c, s, acts, SkipJoiners(c.g, s, w, k))
    decreases |c.g.succs[w]| - k
  {
    if k == |c.g.succs[w]| {
      acts := [];
    } else {
      var j := c.g.succs[w][k];
      assert j in c.g.succs[w];
      EdgeBothWays(c.g, w, j);
      if c.g.IsAny(j) {
        var first := SkipCandsSteps(c, s, w, j, 0);
        var s' := SkipCands(c.g, s, w, j, 0);
        var rest := SkipJoinersSteps(c, s', w, k + 1);
        FollowsThen(c, s, first, s', rest, SkipJoiners(c.g, s, w, k));
        acts := first + rest;
      } else {
        acts := SkipJoinersSteps(c, s, w, k + 1);
      }
    }
  }

  lemma {:induction false} ScheduleFromSteps(c: Config, s: St, i: nat) returns (acts: seq<Step>)
    requires WellFormed(c.g) && Shape(c.g, s) && i <= c.g.N() && !DestructiveRunning(c.g, s.state)
    ensures Follows(c, s, acts, ScheduleFrom(c, s, i))
    decreases c.g.N() - i
  {
    if i == c.g.N() || s.inFlight >= c.maxParallel {
      acts := [];
    } else if !s.state[i].Ready? || (c.g.IsDestructive(i) && s.inFlight != 0) {
      acts := ScheduleFromSteps(c, s, i + 1);
    } else {
      var s' := LaunchOne(c.g, s, i);
      if c.g.IsDestructive(i) {
        FollowsOne(c, s, Launch(i));
        acts := [Launch(i)];
      } else {
        assert !DestructiveRunning(c.g, s'.state);
        acts := ScheduleFromSteps(c, s', i + 1);
        FollowsFirst(c, s, Launch(i), acts, ScheduleFrom(c, s, i));
        acts := [Launch(i)] + acts;
      }
    }
  }

  lemma ScheduleSteps(c: Config, s: St) returns (acts: seq<Step>)
    requires WellFormed(c.g) && Shape(c.g, s)
    ensures Follows(c, s, acts, Schedule(c, s))
  {
    if DestructiveRunning(c.g, s.state) {
      acts := [];
    } else {
      acts := ScheduleFromSteps(c, s, 0);
    }
  }

  lemma TickScheduleSteps(c: Config, s: St) returns (acts: seq<Step>)
    requires WellFormed(c.g) && Shape(c.g, s)
    ensures Follows(c, s, acts, Schedule(c, Tick(s)))
  {
    acts := ScheduleSteps(c, Tick(s));
    FollowsFirst(c, s, Round, acts, Schedule(c, Tick(s)));
    acts := [Round] + acts;
  }

  lemma SettleSteps(c: Config, s: St, v: nat) returns (acts: seq<Step>)
    requires WellFormed(c.g) && Shape(c.g, s) && v < c.g.N()
    ensures Follows(c, s, acts, Settle(c.g, s, v))
  {
    var s' := if s.state[v].Executed? then SkipJoiners(c.g, s, v, 0) else s;
    acts := [];
    if s.state[v].Executed? {
      acts := SkipJoinersSteps(c, s, v, 0);
    }
    var rest := PromoteSteps(c, s', 0);
    FollowsThen(c, s, acts, s', rest, Settle(c.g, s, v));
    acts := acts + rest;
  }

  /** The quiet part of starting a run. */
  lemma StartSteps(c: Config) returns (acts: seq<Step>)
    requires WellFormed(c.g)
    ensures Follows(c, Blank(c.g), acts, Start(c))
  {
    var b := Blank(c.g);
    var seeded := SeedFrom(c.g, b, 0);
    acts := SeedSteps(c, b, 0);
    var rest := TickScheduleSteps(c, seeded);
    FollowsThen(c, b, acts, seeded, rest, Start(c));
    acts := acts + rest;
  }

  /** The quiet part of handling an event: after the result is absorbed. */
  lemma HandleSteps(c: Config, s: St, e: Event) returns (acts: seq<Step>)
    requires WellFormed(c.g) && Shape(c.g, s) && e.node < c.g.N()
    ensures s.state[e.node].IsTerminal() ==> Follows(c, Receive(s, e.node), acts, Handle(c, s, e))
    ensures !s.state[e.node].IsTerminal() ==> Follows(c, Absorb(c, s, e.node, e.result), acts, Handle(c, s, e))
  {
    if s.state[e.node].IsTerminal() {
      acts := TickScheduleSteps(c, Receive(s, e.node));
    } else {
      var s1 := Absorb(c, s, e.node, e.result);
      var s2 := Settle(c.g, s1, e.node);
      acts := SettleSteps(c, s1, e.node);
      var rest := TickScheduleSteps(c, s2);
      FollowsThen(c, s1, acts, s2, rest, Handle(c, s, e));
      acts := acts + rest;
    }
  }
}
