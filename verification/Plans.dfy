/** The plan data model (engine/plan/types.go): node states, join modes,
    side-effect levels, plans, and the field-level check `BasicValidate`. */
module Plans {

  datatype Option<+T> = None | Some(value: T)

  datatype NodeState =
    | Pending | Ready | Running | WaitingHuman | Blocked
    | Executed | FailedRetryable | Failed | Cancelled | Skipped
  {
    predicate IsTerminal() {
      Executed? || Failed? || Cancelled? || Skipped?
    }

    predicate IsTerminalSuccess() {
      Executed? || Skipped?
    }
  }

  // The two enumerations are strings in a plan file, so an unknown name can occur.
  datatype JoinMode = AllOf | AnyOf | OtherJoin(name: string) {
    predicate Valid() { AllOf? || AnyOf? }
  }

  datatype SideEffect = NoEffect | Read | Write | Destructive | OtherEffect(name: string) {
    predicate Valid() { !OtherEffect? }
  }

  // `schema` is None both for a nil contract and for one without a schema field.
  datatype Node = Node(id: string, join: JoinMode, sideEffect: SideEffect,
                       retryBudget: int, timeoutMs: int, schema: Option<string>)

  datatype Edge = Edge(from: string, to: string)

  datatype Plan = Plan(id: string, version: int, nodes: seq<Node>, edges: seq<Edge>)

  datatype PlanError =
    | EmptyPlanId | BadVersion | NoNodes
    | EmptyNodeId(node: nat) | DuplicateId(node: nat) | BadJoin(node: nat) | BadSideEffect(node: nat)
    | NegativeRetryBudget(node: nat) | NegativeTimeout(node: nat)
    | MissingFrom(edge: nat) | MissingTo(edge: nat) | SelfLoop(edge: nat)

  predicate UniqueIds(nodes: seq<Node>) {
    forall i, j :: 0 <= i < j < |nodes| ==> nodes[i].id != nodes[j].id
  }

  predicate HasId(nodes: seq<Node>, id: string) {
    exists i :: 0 <= i < |nodes| && nodes[i].id == id
  }

  predicate NodeFieldsOk(n: Node) {
    n.id != "" && n.join.Valid() && n.sideEffect.Valid() && n.retryBudget >= 0 && n.timeoutMs >= 0
  }

  predicate EdgeOk(nodes: seq<Node>, e: Edge) {
    HasId(nodes, e.from) && HasId(nodes, e.to) && e.from != e.to
  }

  /** What a plan must satisfy before its graph is looked at. */
  predicate BasicValid(p: Plan) {
    && p.id != "" && p.version >= 1 && |p.nodes| > 0
    && (forall i :: 0 <= i < |p.nodes| ==> NodeFieldsOk(p.nodes[i]))
    && UniqueIds(p.nodes)
    && (forall k :: 0 <= k < |p.edges| ==> EdgeOk(p.nodes, p.edges[k]))
  }

  /** The first `i` nodes are fault-free. */
  predicate NodesOkUpTo(p: Plan, i: nat)
    requires i <= |p.nodes|
  {
    && (forall j :: 0 <= j < i ==> NodeFieldsOk(p.nodes[j]))
    && UniqueIds(p.nodes[..i])
  }

  /** `e` names a real fault of `p`, and everything that is checked before it is in order. */
  predicate IsFirstFault(p: Plan, e: PlanError) {
    match e
    case EmptyPlanId => p.id == ""
    case BadVersion => p.id != "" && p.version < 1
    case NoNodes => p.id != "" && p.version >= 1 && |p.nodes| == 0
    case EmptyNodeId(i) => NodeFault(p, i) && p.nodes[i].id == ""
    case DuplicateId(i) => NodeFault(p, i) && p.nodes[i].id != "" && HasId(p.nodes[..i], p.nodes[i].id)
    case BadJoin(i) => FreshNode(p, i) && !p.nodes[i].join.Valid()
    case BadSideEffect(i) => FreshNode(p, i) && p.nodes[i].join.Valid() && !p.nodes[i].sideEffect.Valid()
    case NegativeRetryBudget(i) =>
      FreshNode(p, i) && p.nodes[i].join.Valid() && p.nodes[i].sideEffect.Valid() && p.nodes[i].retryBudget < 0
    case NegativeTimeout(i) =>
      FreshNode(p, i) && p.nodes[i].join.Valid() && p.nodes[i].sideEffect.Valid()
      && p.nodes[i].retryBudget >= 0 && p.nodes[i].timeoutMs < 0
    case MissingFrom(k) => EdgeFault(p, k) && !HasId(p.nodes, p.edges[k].from)
    case MissingTo(k) => EdgeFault(p, k) && HasId(p.nodes, p.edges[k].from) && !HasId(p.nodes, p.edges[k].to)
    case SelfLoop(k) => EdgeFault(p, k) && HasId(p.nodes, p.edges[k].from) && p.edges[k].from == p.edges[k].to
  }

  predicate NodeFault(p: Plan, i: nat) {
    p.id != "" && p.version >= 1 && i < |p.nodes| && NodesOkUpTo(p, i)
  }

  predicate FreshNode(p: Plan, i: nat) {
    NodeFault(p, i) && p.nodes[i].id != "" && !HasId(p.nodes[..i], p.nodes[i].id)
  }

  predicate EdgeFault(p: Plan, k: nat) {
    && p.id != "" && p.version >= 1 && |p.nodes| > 0 && NodesOkUpTo(p, |p.nodes|)
    && k < |p.edges| && forall j :: 0 <= j < k ==> EdgeOk(p.nodes, p.edges[j])
  }

  lemma HasIdExtend(nodes: seq<Node>, i: nat, id: string)
    requires i < |nodes|
    ensures HasId(nodes[..i + 1], id) <==> HasId(nodes[..i], id) || id == nodes[i].id
  {
    assert forall j :: 0 <= j < i ==> nodes[..i + 1][j] == nodes[..i][j];
    assert nodes[..i + 1][i] == nodes[i];
  }

  lemma NodesOkExtend(p: Plan, i: nat)
    requires i < |p.nodes| && NodesOkUpTo(p, i) && NodeFieldsOk(p.nodes[i]) && !HasId(p.nodes[..i], p.nodes[i].id)
    ensures NodesOkUpTo(p, i + 1)
  {
    forall j | 0 <= j < i
      ensures p.nodes[j].id != p.nodes[i].id
    {
      assert p.nodes[..i][j] == p.nodes[j];
    }
    assert forall j :: 0 <= j < i ==> p.nodes[..i + 1][j] == p.nodes[..i][j];
  }

  /** Field-level check; the `seen` set is filled while the nodes are visited. */
  method BasicValidate(p: Plan) returns (r: Option<PlanError>)
    ensures r == None <==> BasicValid(p)
    ensures r.Some? ==> IsFirstFault(p, r.value)
  {
    if p.id == "" { return Some(EmptyPlanId); }
    if p.version < 1 { return Some(BadVersion); }
    if |p.nodes| == 0 { return Some(NoNodes); }
    var seen: set<string> := {};
    for i := 0 to |p.nodes|
      invariant NodesOkUpTo(p, i)
      invariant forall id :: id in seen <==> HasId(p.nodes[..i], id)
    {
      r := ValidateNode(p, i, seen);
      if r.Some? { return; }
      forall id
        ensures HasId(p.nodes[..i + 1], id) <==> HasId(p.nodes[..i], id) || id == p.nodes[i].id
      {
        HasIdExtend(p.nodes, i, id);
      }
      NodesOkExtend(p, i);
      hide HasId, NodesOkUpTo;
      seen := seen + {p.nodes[i].id};
    }
    assert p.nodes[..|p.nodes|] == p.nodes;
    r := ValidateEdges(p, seen);
  }

  method ValidateNode(p: Plan, i: nat, seen: set<string>) returns (r: Option<PlanError>)
    requires NodeFault(p, i) && forall id :: id in seen <==> HasId(p.nodes[..i], id)
    ensures r.Some? ==> IsFirstFault(p, r.value) && !BasicValid(p)
    ensures r == None ==> NodeFieldsOk(p.nodes[i]) && !HasId(p.nodes[..i], p.nodes[i].id)
  {
    var n := p.nodes[i];
    if n.id == "" { return Some(EmptyNodeId(i)); }
    if n.id in seen {
      RepeatedId(p, i);
      return Some(DuplicateId(i));
    }
    if !n.join.Valid() { return Some(BadJoin(i)); }
    if !n.sideEffect.Valid() { return Some(BadSideEffect(i)); }
    if n.retryBudget < 0 { return Some(NegativeRetryBudget(i)); }
    if n.timeoutMs < 0 { return Some(NegativeTimeout(i)); }
    return None;
  }

  lemma RepeatedId(p: Plan, i: nat)
    requires i < |p.nodes| && HasId(p.nodes[..i], p.nodes[i].id)
    ensures !UniqueIds(p.nodes)
  {
    var j :| 0 <= j < i && p.nodes[..i][j].id == p.nodes[i].id;
    assert p.nodes[j].id == p.nodes[i].id;
  }

  method ValidateEdges(p: Plan, seen: set<string>) returns (r: Option<PlanError>)
    requires p.id != "" && p.version >= 1 && |p.nodes| > 0 && NodesOkUpTo(p, |p.nodes|)
    requires forall id :: id in seen <==> HasId(p.nodes, id)
    ensures r == None <==> BasicValid(p)
    ensures r.Some? ==> IsFirstFault(p, r.value)
  {
    assert p.nodes[..|p.nodes|] == p.nodes;
    for k := 0 to |p.edges|
      invariant forall j :: 0 <= j < k ==> EdgeOk(p.nodes, p.edges[j])
    {
      var e := p.edges[k];
      if e.from !in seen { return Some(MissingFrom(k)); }
      if e.to !in seen { return Some(MissingTo(k)); }
      if e.from == e.to { return Some(SelfLoop(k)); }
    }
    return None;
  }
}
