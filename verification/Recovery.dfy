/** The three-level recovery ladder (engine/recovery/recovery.go) and the way the scheduler
    spends it (engine/scheduler/scheduler.go:405-433). */
module Recovery {
  import opened Plans

  // node.Result (engine/node/node.go:16-22); the token count is not used by the engine core.
  datatype Result = Result(output: string, retryable: bool, err: Option<string>)

  datatype Level = LocalRetry | LocalPatch | RequestReplan
  datatype Action = Retry | Replan | Fail
  datatype Decision = Decision(action: Action, level: Level, reason: string)

  datatype Attempt = Attempt(retries: nat, patches: nat, replanned: bool)

  const FRESH := Attempt(0, 0, false)

  // A policy built as a literal may hold negative budgets; they act like zero.
  datatype Policy = Policy(maxRetries: int, maxPatches: int) {
    function RetryCap(): nat { if maxRetries < 0 then 0 else maxRetries }
    function PatchCap(): nat { if maxPatches < 0 then 0 else maxPatches }
  }

  function NewStandardPolicy(maxRetries: int, maxPatches: int): (p: Policy)
    ensures p.maxRetries >= 0 && p.maxPatches >= 0
    ensures p.RetryCap() == Policy(maxRetries, maxPatches).RetryCap()
    ensures p.PatchCap() == Policy(maxRetries, maxPatches).PatchCap()
  {
    Policy(if maxRetries < 0 then 0 else maxRetries, if maxPatches < 0 then 0 else maxPatches)
  }

  predicate Classify(r: Result) {
    r.retryable
  }

  function Decide(p: Policy, att: Attempt, r: Result): Decision {
    DecideKind(p, att, Classify(r))
  }

  /** `Decide` reads nothing of the result but its kind. */
  function DecideKind(p: Policy, att: Attempt, transient: bool): Decision {
    if transient && att.retries < p.maxRetries then Decision(Retry, LocalRetry, "transient: retry")
    else if att.patches < p.maxPatches then Decision(Retry, LocalPatch, "patch + retry")
    else if !att.replanned then Decision(Replan, RequestReplan, "replan")
    else Decision(Fail, RequestReplan, "recovery exhausted")
  }

  /** The four decisions: each level is chosen exactly when it is the first one left. */
  lemma FourDecisions(p: Policy, att: Attempt, r: Result)
    ensures var d := Decide(p, att, r);
      var first, second := r.retryable && att.retries < p.maxRetries, att.patches < p.maxPatches;
      && (d == Decision(Action.Retry, LocalRetry, "transient: retry") <==> first)
      && (d == Decision(Action.Retry, LocalPatch, "patch + retry") <==> !first && second)
      && (d == Decision(Action.Replan, RequestReplan, "replan") <==> !first && !second && !att.replanned)
      && (d == Decision(Action.Fail, RequestReplan, "recovery exhausted") <==> !first && !second && att.replanned)
  {
  }

  /** The bookkeeping the scheduler does for a decision. */
  function Spend(att: Attempt, d: Decision): Attempt {
    match d.action
    case Retry => if d.level == LocalPatch then att.(patches := att.patches + 1)
                  else att.(retries := att.retries + 1)
    case Replan => att.(replanned := true)
    case Fail => att
  }

  // ---- a node that keeps failing: `kinds[i]` tells whether failure i is transient -------------

  function Climb(p: Policy, kinds: seq<bool>): Attempt {
    if |kinds| == 0 then FRESH
    else
      var att := Climb(p, kinds[..|kinds| - 1]);
      Spend(att, DecideKind(p, att, kinds[|kinds| - 1]))
  }

  function DecisionAt(p: Policy, kinds: seq<bool>, i: nat): Decision
    requires i < |kinds|
  {
    DecideKind(p, Climb(p, kinds[..i]), kinds[i])
  }

  lemma ClimbStep(p: Policy, kinds: seq<bool>, i: nat)
    requires i < |kinds|
    ensures Climb(p, kinds[..i + 1]) == Spend(Climb(p, kinds[..i]), DecisionAt(p, kinds, i))
  {
    assert kinds[..i + 1][..i] == kinds[..i];
  }

  function Rung(d: Decision): nat {
    match d.action
    case Retry => if d.level == LocalRetry then 1 else 2
    case Replan => 3
    case Fail => 4
  }

  function Transients(kinds: seq<bool>): nat {
    if |kinds| == 0 then 0
    else Transients(kinds[..|kinds| - 1]) + (if kinds[|kinds| - 1] then 1 else 0)
  }

  function Min(a: nat, b: nat): nat { if a < b then a else b }

  /** Budgets are never exceeded; retries count exactly the transient failures up to the cap. */
  lemma {:induction false} LadderBudgets(p: Policy, kinds: seq<bool>)
    ensures Climb(p, kinds).retries == Min(p.RetryCap(), Transients(kinds))
    ensures Climb(p, kinds).patches <= p.PatchCap()
    ensures Climb(p, kinds).replanned ==> Climb(p, kinds).patches == p.PatchCap()
  {
    if |kinds| > 0 {
      LadderBudgets(p, kinds[..|kinds| - 1]);
    }
  }

  /** For any mix of failures: a replan only once every patch is spent, a fail only after it. */
  lemma LadderOrder(p: Policy, kinds: seq<bool>, i: nat)
    requires i < |kinds|
    ensures DecisionAt(p, kinds, i).action == Replan ==>
      Climb(p, kinds[..i]).patches == p.PatchCap() && !Climb(p, kinds[..i]).replanned
    ensures DecisionAt(p, kinds, i).action == Fail ==>
      exists j :: 0 <= j < i && DecisionAt(p, kinds, j).action == Replan
  {
    LadderBudgets(p, kinds[..i]);
    if Climb(p, kinds[..i]).replanned {
      var j := ReplanHappened(p, kinds, i);
    }
  }

  lemma {:induction false} ReplanHappened(p: Policy, kinds: seq<bool>, i: nat) returns (j: nat)
    requires i <= |kinds| && Climb(p, kinds[..i]).replanned
    ensures j < i && DecisionAt(p, kinds, j).action == Replan
  {
    ClimbStep(p, kinds, i - 1);
    if DecisionAt(p, kinds, i - 1).action == Replan {
      j := i - 1;
    } else {
      j := ReplanHappened(p, kinds, i - 1);
    }
  }

  /** Until the first fail every failure is paid for, so a fail comes within R + P + 2 decisions. */
  lemma LadderTerminates(p: Policy, kinds: seq<bool>)
    requires |kinds| >= p.RetryCap() + p.PatchCap() + 2
    ensures exists i :: 0 <= i < p.RetryCap() + p.PatchCap() + 2 && DecisionAt(p, kinds, i).action == Fail
  {
    var n := p.RetryCap() + p.PatchCap() + 2;
    if forall i :: 0 <= i < n ==> DecisionAt(p, kinds, i).action != Fail {
      EveryFailurePaid(p, kinds, n);
      LadderBudgets(p, kinds[..n]);
    }
  }

  lemma {:induction false} EveryFailurePaid(p: Policy, kinds: seq<bool>, n: nat)
    requires n <= |kinds|
    requires forall i :: 0 <= i < n ==> DecisionAt(p, kinds, i).action != Fail
    ensures var a := Climb(p, kinds[..n]); n == a.retries + a.patches + (if a.replanned then 1 else 0)
  {
    if n > 0 {
      EveryFailurePaid(p, kinds, n - 1);
      ClimbStep(p, kinds, n - 1);
    }
  }

  /** With one failure kind the ladder is a closed form, so its rung never goes down. */
  lemma {:induction false} LadderOneKind(p: Policy, transient: bool, kinds: seq<bool>, i: nat)
    requires i < |kinds| && forall k :: 0 <= k < |kinds| ==> kinds[k] == transient
    ensures var r := if transient then p.RetryCap() else 0;
      Rung(DecisionAt(p, kinds, i)) ==
      if i < r then 1 else if i < r + p.PatchCap() then 2 else if i == r + p.PatchCap() then 3 else 4
  {
    LadderOneKindState(p, transient, kinds, i);
  }

  lemma {:induction false} LadderOneKindState(p: Policy, transient: bool, kinds: seq<bool>, i: nat)
    requires i <= |kinds| && forall k :: 0 <= k < |kinds| ==> kinds[k] == transient
    ensures var r := if transient then p.RetryCap() else 0;
      Climb(p, kinds[..i]) ==
      Attempt(Min(i, r), Min(if i < r then 0 else i - r, p.PatchCap()), i > r + p.PatchCap())
  {
    if i > 0 {
      LadderOneKindState(p, transient, kinds, i - 1);
      ClimbStep(p, kinds, i - 1);
    }
  }

  /** With mixed kinds the rung does go down: exactly when a structural failure is followed by
      a transient one while fewer than R transient failures came before. */
  lemma RungDropsIff(p: Policy, kinds: seq<bool>, i: nat)
    requires i + 1 < |kinds|
    ensures Rung(DecisionAt(p, kinds, i + 1)) < Rung(DecisionAt(p, kinds, i)) <==>
      !kinds[i] && kinds[i + 1] && Transients(kinds[..i]) < p.RetryCap()
  {
    LadderBudgets(p, kinds[..i]);
    ClimbStep(p, kinds, i);
  }

  /** The shortest such mix: patch first, then back to a retry. */
  lemma RungCanDrop()
    ensures var p, kinds := Policy(1, 1), [false, true];
      DecisionAt(p, kinds, 0).level == LocalPatch && DecisionAt(p, kinds, 1).level == LocalRetry
  {
    var kinds := [false, true];
    assert kinds[..0] == [];
    ClimbStep(Policy(1, 1), kinds, 0);
  }
}
