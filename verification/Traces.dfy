/** The transition trace: one `Move` for every state change the scheduler makes, and what
    can be read off it. The log entries are the rendered moves (see `Render`). */
module Traces {
  import opened Plans
  import opened Graphs
  import opened Wal

  datatype Trigger =
    | DepsMet | Dispatch | Skip | Success | FailRetryable | FailStructural
    | Patch | Retry | ReplanRequested | GiveUp | Cancel
  {
    function Name(): string {
      match this
      case DepsMet => "deps_met"
      case Dispatch => "dispatch"
      case Skip => "skip"
      case Success => "success"
      case FailRetryable => "fail_retryable"
      case FailStructural => "fail_structural"
      case Patch => "patch"
      case Retry => "retry"
      case ReplanRequested => "replan_requested"
      case GiveUp => "fail"
      case Cancel => "cancelled"
    }
  }

  datatype Move = Move(node: nat, from: NodeState, to: NodeState, trigger: Trigger, payload: string)

  /** The state changes the code can make. `GiveUp` is not among them. */
  predicate LegalMove(m: Move) {
    match (m.from, m.to)
    case (Pending, Ready) => m.trigger == DepsMet && m.payload == ""
    case (Ready, Running) => m.trigger == Dispatch && m.payload == ""
    case (Running, Executed) => m.trigger == Success && m.payload == ""
    case (Running, FailedRetryable) => m.trigger == FailRetryable || m.trigger == FailStructural
    case (FailedRetryable, Ready) =>
      (m.trigger == Retry && m.payload == "transient: retry") || (m.trigger == Patch && m.payload == "patch + retry")
    case (FailedRetryable, Failed) => m.trigger == ReplanRequested && m.payload == "replan"
    case (Pending, Skipped) => m.trigger == Skip && m.payload == ""
    case (Ready, Skipped) => m.trigger == Skip && m.payload == ""
    case (Running, Skipped) => m.trigger == Skip && m.payload == ""
    case (Running, Cancelled) => m.trigger == Cancel && m.payload == ""
    case _ => false
  }

  // ---- one node's part -----------------------------------------------------------

  function Proj(t: seq<Move>, v: nat): seq<Move> {
    if |t| == 0 then []
    else
      var m := t[|t| - 1];
      if m.node == v then Proj(t[..|t| - 1], v) + [m] else Proj(t[..|t| - 1], v)
  }

  function StateAfter(t: seq<Move>, v: nat): NodeState {
    if |t| == 0 then Pending
    else
      var m := t[|t| - 1];
      if m.node == v then m.to else StateAfter(t[..|t| - 1], v)
  }

  /** The dispatches of a trace. */
  function Dispatches(t: seq<Move>): seq<Move> {
    if |t| == 0 then []
    else
      var m := t[|t| - 1];
      if m.to.Running? then Dispatches(t[..|t| - 1]) + [m] else Dispatches(t[..|t| - 1])
  }

  lemma AppendMove(t: seq<Move>, m: Move, v: nat)
    ensures Proj(t + [m], v) == if m.node == v then Proj(t, v) + [m] else Proj(t, v)
    ensures StateAfter(t + [m], v) == if m.node == v then m.to else StateAfter(t, v)
    ensures Dispatches(t + [m]) == if m.to.Running? then Dispatches(t) + [m] else Dispatches(t)
  {
    assert (t + [m])[..|t|] == t;
  }

  // How often node v was dispatched.
  function Launches(t: seq<Move>, v: nat): nat {
    |Proj(Dispatches(t), v)|
  }

  ghost predicate EverReady(t: seq<Move>, v: nat) {
    exists k :: 0 <= k < |t| && t[k].node == v && t[k].to.Ready?
  }

  /** The moves of a trace fit together: legal, and each starts where the node's last one ended. */
  ghost predicate Chained(t: seq<Move>, n: nat) {
    forall k :: 0 <= k < |t| ==>
      t[k].node < n && LegalMove(t[k]) && t[k].from == StateAfter(t[..k], t[k].node)
  }

  // ---- summing over nodes ----------------------------------------------------------

  function TotalUpTo(t: seq<Move>, n: nat): nat {
    if n == 0 then 0 else TotalUpTo(t, n - 1) + |Proj(t, n - 1)|
  }

  lemma {:induction false} TotalAppend(t: seq<Move>, m: Move, n: nat)
    ensures TotalUpTo(t + [m], n) == TotalUpTo(t, n) + if m.node < n then 1 else 0
  {
    if n > 0 {
      TotalAppend(t, m, n - 1);
      AppendMove(t, m, n - 1);
    }
  }

  lemma {:induction false} TotalEmpty(n: nat)
    ensures TotalUpTo([], n) == 0
  {
    if n > 0 { TotalEmpty(n - 1); }
  }

  lemma {:induction false} TotalIsLength(t: seq<Move>, n: nat)
    requires forall k :: 0 <= k < |t| ==> t[k].node < n
    ensures |t| == TotalUpTo(t, n)
  {
    if |t| == 0 {
      TotalEmpty(n);
    } else {
      var init, m := t[..|t| - 1], t[|t| - 1];
      TotalIsLength(init, n);
      assert t == init + [m];
      TotalAppend(init, m, n);
    }
  }

  lemma {:induction false} TotalBound(t: seq<Move>, n: nat, b: nat)
    requires forall v :: 0 <= v < n ==> |Proj(t, v)| <= b
    ensures TotalUpTo(t, n) <= n * b
  {
    if n > 0 {
      TotalBound(t, n - 1, b);
      assert n * b == (n - 1) * b + b;
    }
  }

  lemma LengthBound(t: seq<Move>, n: nat, b: nat)
    requires forall k :: 0 <= k < |t| ==> t[k].node < n
    requires forall v :: 0 <= v < n ==> |Proj(t, v)| <= b
    ensures |t| <= n * b
  {
    TotalIsLength(t, n);
    TotalBound(t, n, b);
  }

  lemma {:induction false} DispatchNodes(t: seq<Move>, n: nat)
    requires forall k :: 0 <= k < |t| ==> t[k].node < n
    ensures forall k :: 0 <= k < |Dispatches(t)| ==> Dispatches(t)[k].node < n
  {
    if |t| > 0 { DispatchNodes(t[..|t| - 1], n); }
  }

  // ---- the log entries ---------------------------------------------------------------

  function RenderMove(g: Graph, run: string, k: nat, m: Move): Entry
    requires m.node < g.N()
  {
    Entry(run, g.nodes[m.node].id, m.trigger.Name(), k, m.from, m.to, m.payload)
  }

  function Render(g: Graph, run: string, t: seq<Move>): seq<Entry>
    requires forall k :: 0 <= k < |t| ==> t[k].node < g.N()
  {
    seq(|t|, k requires 0 <= k < |t| => RenderMove(g, run, k, t[k]))
  }

  /** The state changes the log can show, with their texts. */
  predicate LegalEntry(e: Entry) {
    match (e.from, e.to)
    case (Pending, Ready) => e.trigger == "deps_met" && e.payload == ""
    case (Ready, Running) => e.trigger == "dispatch" && e.payload == ""
    case (Running, Executed) => e.trigger == "success" && e.payload == ""
    case (Running, FailedRetryable) => e.trigger == "fail_retryable" || e.trigger == "fail_structural"
    case (FailedRetryable, Ready) =>
      || (e.trigger == "retry" && e.payload == "transient: retry")
      || (e.trigger == "patch" && e.payload == "patch + retry")
    case (FailedRetryable, Failed) => e.trigger == "replan_requested" && e.payload == "replan"
    case (Pending, Skipped) => e.trigger == "skip" && e.payload == ""
    case (Ready, Skipped) => e.trigger == "skip" && e.payload == ""
    case (Running, Skipped) => e.trigger == "skip" && e.payload == ""
    case (Running, Cancelled) => e.trigger == "cancelled" && e.payload == ""
    case _ => false
  }

  /** What is written for a move: its node's id, its own number, states and payload, and the trigger by
      the code's name. */
  lemma WrittenAs(g: Graph, run: string, t: seq<Move>, k: nat)
    requires (forall i :: 0 <= i < |t| ==> t[i].node < g.N()) && k < |t|
    ensures var e, m := Render(g, run, t)[k], t[k];
      && e.runId == run && e.nodeId == g.nodes[m.node].id && e.seqNo == k
      && e.from == m.from && e.to == m.to && e.payload == m.payload
      && e.trigger == match m.trigger
                      case DepsMet => "deps_met"
                      case Dispatch => "dispatch"
                      case Skip => "skip"
                      case Success => "success"
                      case FailRetryable => "fail_retryable"
                      case FailStructural => "fail_structural"
                      case Patch => "patch"
                      case Retry => "retry"
                      case ReplanRequested => "replan_requested"
                      case GiveUp => "fail"
                      case Cancel => "cancelled"
  {
  }

  /** Rebuild the state map from log entries: the last `to` of each node. */
  function Rebuild(es: seq<Entry>): map<string, NodeState> {
    if |es| == 0 then map[]
    else Rebuild(es[..|es| - 1])[es[|es| - 1].nodeId := es[|es| - 1].to]
  }

  function LookUp(m: map<string, NodeState>, id: string): NodeState {
    if id in m then m[id] else Pending
  }

  lemma {:induction false} RebuildState(g: Graph, run: string, t: seq<Move>, v: nat)
    requires UniqueIds(g.nodes) && v < g.N()
    requires forall k :: 0 <= k < |t| ==> t[k].node < g.N()
    ensures LookUp(Rebuild(Render(g, run, t)), g.nodes[v].id) == StateAfter(t, v)
  {
    if |t| > 0 {
      var init, m := t[..|t| - 1], t[|t| - 1];
      RebuildState(g, run, init, v);
      assert Render(g, run, t)[..|t| - 1] == Render(g, run, init);
      assert m.node == v <==> g.nodes[m.node].id == g.nodes[v].id;
    }
  }

  lemma {:induction false} RenderedRun(g: Graph, run: string, t: seq<Move>)
    requires forall k :: 0 <= k < |t| ==> t[k].node < g.N()
    ensures FilterRun(Render(g, run, t), run) == Render(g, run, t)
    ensures StableSort(Render(g, run, t)) == Render(g, run, t)
  {
    AllOfRun(Render(g, run, t), run);
    SortOfSorted(Render(g, run, t));
  }

  lemma {:induction false} AllOfRun(es: seq<Entry>, run: string)
    requires forall k :: 0 <= k < |es| ==> es[k].runId == run
    ensures FilterRun(es, run) == es
  {
    if |es| > 0 {
      AllOfRun(es[..|es| - 1], run);
      assert es == es[..|es| - 1] + [es[|es| - 1]];
    }
  }
}
