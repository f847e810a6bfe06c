/** The graph validator: endpoint, approval-gate and reachability checks, run together
    with the cycle and stage checks. */
module GraphValidator {
  import opened Results
  import opened Graphs
  import opened AgentModel
  import opened StageTopology
  import CycleCheck
  import CycleOrder

  datatype ValidationError =
    | UnregisteredEndpoint(edge: EdgeContract)
    | NoIncomingEdge(node: string)
    | UnguardedEdge(edge: EdgeContract)
    | BadCycle(cause: CycleCheck.CycleError)
    | BadTransition(edge: EdgeContract)
    | NoTerminalEdge
    | UnregisteredStart
    | UnreachableNode(node: string)
    | NoTerminalPath(node: string)

  predicate EndpointsRegistered(g: AgentGraph, e: EdgeContract) {
    (Special(e.fromNode) || e.fromNode in g.nodes) && (Special(e.toNode) || e.toNode in g.nodes)
  }

  method ValidateNodeEndpoints(g: AgentGraph) returns (r: Option<ValidationError>)
    ensures r.None? <==> forall e :: e in g.edges ==> EndpointsRegistered(g, e)
    ensures r.Some? ==> r.value.UnregisteredEndpoint? && r.value.edge in g.edges && !EndpointsRegistered(g, r.value.edge)
  {
    for i := 0 to |g.edges|
      invariant forall j :: 0 <= j < i ==> EndpointsRegistered(g, g.edges[j])
    {
      if !EndpointsRegistered(g, g.edges[i]) {
        return Some(UnregisteredEndpoint(g.edges[i]));
      }
    }
    r := None;
  }

  /** The edge is an approval gate, or leaves an APPROVAL-stage node. */
  predicate Guarded(g: AgentGraph, e: EdgeContract) {
    e.edgeType == APPROVAL_GATE || (e.fromNode != START && e.fromNode in g.nodes && g.nodes[e.fromNode].stage == APPROVAL)
  }

  /** A side-effecting node is entered, and only under guard. */
  predicate Gated(g: AgentGraph, n: string)
    requires n in g.nodes
  {
    g.nodes[n].isSideEffecting ==>
      && (exists e :: e in g.edges && e.toNode == n)
      && (forall e :: e in g.edges && e.toNode == n ==> Guarded(g, e))
  }

  method ValidateApprovalGates(g: AgentGraph) returns (r: Option<ValidationError>)
    ensures r.None? <==> forall n :: n in g.nodes ==> Gated(g, n)
    ensures r.Some? ==>
              || (r.value.NoIncomingEdge? && r.value.node in g.nodes && forall e :: e in g.edges ==> e.toNode != r.value.node)
              || (r.value.UnguardedEdge? && r.value.edge in g.edges && !Guarded(g, r.value.edge)
                  && r.value.edge.toNode in g.nodes && g.nodes[r.value.edge.toNode].isSideEffecting)
  {
    var todo := g.nodes.Keys;
    while todo != {}
      invariant forall n :: n in g.nodes && n !in todo ==> Gated(g, n)
      decreases todo
    {
      var n :| n in todo;
      todo := todo - {n};
      if n in g.nodes && g.nodes[n].isSideEffecting {
        var entered := false;
        for i := 0 to |g.edges|
          invariant entered <==> exists j :: 0 <= j < i && g.edges[j].toNode == n
          invariant forall j :: 0 <= j < i && g.edges[j].toNode == n ==> Guarded(g, g.edges[j])
        {
          if g.edges[i].toNode == n {
            entered := true;
            if !Guarded(g, g.edges[i]) {
              assert !Gated(g, n);
              return Some(UnguardedEdge(g.edges[i]));
            }
          }
        }
        if !entered {
          assert !Gated(g, n);
          return Some(NoIncomingEdge(n));
        }
      }
    }
    r := None;
  }

  /** Successors, as the validator's adjacency dictionary lists them. */
  function Adjacent(edges: seq<EdgeContract>, n: string): (r: seq<string>)
    ensures forall v :: v in r <==> exists e :: e in edges && e.fromNode == n && e.toNode == v
  {
    if edges == [] then []
    else (if edges[0].fromNode == n then [edges[0].toNode] else []) + Adjacent(edges[1..], n)
  }

  /** A worklist search in progress: everything seen is reachable, and whatever follows a
      seen node is seen or still queued. */
  ghost predicate Exploring(rel: Relation, start: string, seen: set<string>, queue: seq<string>) {
    && (start in seen || start in queue)
    && (forall v :: v in seen || v in queue ==> Reaches(rel, start, v))
    && (forall p :: p in rel && p.0 in seen ==> p.1 in seen || p.1 in queue)
  }

  lemma ExplorationDone(rel: Relation, start: string, seen: set<string>)
    requires Exploring(rel, start, seen, [])
    ensures forall v :: v in seen <==> Reaches(rel, start, v)
  {
    forall v | Reaches(rel, start, v)
      ensures v in seen
    {
      var w :| Joins(rel, w, start, v);
      ClosedSetHoldsWalk(rel, seen, w);
    }
  }

  lemma ExplorationSkips(rel: Relation, start: string, seen: set<string>, queue: seq<string>)
    requires queue != [] && Exploring(rel, start, seen, queue) && queue[0] in seen
    ensures Exploring(rel, start, seen, queue[1..])
  {
    assert queue == [queue[0]] + queue[1..];
  }

  lemma ExplorationStep(rel: Relation, start: string, seen: set<string>, queue: seq<string>, next: seq<string>)
    requires queue != [] && Exploring(rel, start, seen, queue)
    requires forall v :: v in next ==> (queue[0], v) in rel
    requires forall v :: (queue[0], v) in rel ==> v in next || v in seen + {queue[0]}
    ensures Exploring(rel, start, seen + {queue[0]}, queue[1..] + next)
  {
    assert queue == [queue[0]] + queue[1..];
    assert queue[0] in queue;
    forall v | v in next
      ensures Reaches(rel, start, v)
    {
      ReachesStep(rel, start, queue[0], v);
    }
    forall p | p in rel && p.0 in seen + {queue[0]}
      ensures p.1 in seen + {queue[0]} || p.1 in queue[1..] + next
    {
      if p.0 !in seen {
        assert p == (queue[0], p.1);
      }
    }
  }

  function Without(vs: seq<string>, seen: set<string>): (r: seq<string>)
    ensures forall v :: v in r <==> v in vs && v !in seen
  {
    if vs == [] then [] else (if vs[0] in seen then [] else [vs[0]]) + Without(vs[1..], seen)
  }

  /** All nodes reachable from `start`. A node may be queued more than once. */
  method ReachableFrom(g: AgentGraph, start: string) returns (seen: set<string>)
    ensures forall v :: v in seen <==> Reaches(g.Links(), start, v)
  {
    hide Exploring;
    ghost var universe := Endpoints(g.Links()) + {start};
    seen := {};
    var queue := [start];
    ExplorationStarts(g.Links(), start);
    while queue != []
      invariant Exploring(g.Links(), start, seen, queue)
      invariant seen <= universe && forall v :: v in queue ==> v in universe
      decreases universe - seen, |queue|
    {
      var curr := queue[0];
      assert curr in queue;
      if curr in seen {
        ExplorationSkips(g.Links(), start, seen, queue);
        queue := queue[1..];
      } else {
        var next := Without(Adjacent(g.edges, curr), seen + {curr});
        ExplorationStep(g.Links(), start, seen, queue, next);
        seen := seen + {curr};
        queue := queue[1..] + next;
        assert forall v :: v in next ==> (curr, v) in g.Links();
      }
    }
    ExplorationDone(g.Links(), start, seen);
  }

  lemma ExplorationStarts(rel: Relation, start: string)
    ensures Exploring(rel, start, {}, [start])
  {
    ReachesSelf(rel, start);
  }

  /** Whether a terminal node is reachable from `node`; stops at the first one met. */
  method CanTerminate(g: AgentGraph, node: string, terminals: set<string>) returns (r: bool)
    ensures r <==> exists t :: t in terminals && Reaches(g.Links(), node, t)
  {
    hide Exploring;
    ghost var universe := Endpoints(g.Links()) + {node};
    var visited: set<string> := {};
    var queue := [node];
    ExplorationStarts(g.Links(), node);
    while queue != []
      invariant Exploring(g.Links(), node, visited, queue)
      invariant visited !! terminals
      invariant visited <= universe && forall v :: v in queue ==> v in universe
      decreases universe - visited, |queue|
    {
      var curr := queue[0];
      assert curr in queue;
      if curr in terminals {
        assert Reaches(g.Links(), node, curr) by {
          QueuedIsReachable(g.Links(), node, visited, queue, curr);
        }
        return true;
      }
      if curr in visited {
        ExplorationSkips(g.Links(), node, visited, queue);
        queue := queue[1..];
      } else {
        var next := Without(Adjacent(g.edges, curr), visited + {curr});
        ExplorationStep(g.Links(), node, visited, queue, next);
        visited := visited + {curr};
        queue := queue[1..] + next;
        assert forall v :: v in next ==> (curr, v) in g.Links();
      }
    }
    ExplorationDone(g.Links(), node, visited);
    r := false;
  }

  lemma QueuedIsReachable(rel: Relation, start: string, seen: set<string>, queue: seq<string>, v: string)
    requires Exploring(rel, start, seen, queue) && v in queue
    ensures Reaches(rel, start, v)
  {
  }

  predicate Operational(n: string) {
    n !in ["initialization", "termination", "approval_boundary", "human_approval", START, END]
  }

  function Terminals(g: AgentGraph): (r: set<string>)
    ensures forall t :: t in r <==> t == END || (t in g.nodes && g.nodes[t].isTerminal)
  {
    {END} + set n | n in g.nodes && g.nodes[n].isTerminal
  }

  ghost predicate HasTerminalPath(g: AgentGraph, n: string) {
    exists t :: t in Terminals(g) && Reaches(g.Links(), n, t)
  }

  /** Nothing operational is out of reach of the start, and nothing in reach is a dead end. */
  ghost predicate TerminalReachable(g: AgentGraph, start: string) {
    && (exists e :: e in g.edges && e.toNode == END)
    && (start in g.nodes || start == START)
    && (forall n :: n in g.nodes && Operational(n) ==> Reaches(g.Links(), start, n))
    && (forall n :: Reaches(g.Links(), start, n) ==> HasTerminalPath(g, n))
  }

  method ValidateTerminalReachability(g: AgentGraph, start: string) returns (r: Option<ValidationError>)
    ensures r.None? <==> TerminalReachable(g, start)
    ensures r.Some? ==> r.value.NoTerminalEdge? || r.value.UnregisteredStart? || r.value.UnreachableNode? || r.value.NoTerminalPath?
    ensures r.Some? && r.value.UnreachableNode? ==>
              r.value.node in g.nodes && Operational(r.value.node) && !Reaches(g.Links(), start, r.value.node)
    ensures r.Some? && r.value.NoTerminalPath? ==>
              Reaches(g.Links(), start, r.value.node) && !HasTerminalPath(g, r.value.node)
  {
    if !exists e :: e in g.edges && e.toNode == END {
      return Some(NoTerminalEdge);
    }
    if start !in g.nodes && start != START {
      return Some(UnregisteredStart);
    }
    var reachable := ReachableFrom(g, start);
    var unchecked := g.nodes.Keys;
    while unchecked != {}
      invariant forall n :: n in g.nodes && n !in unchecked && Operational(n) ==> n in reachable
      decreases unchecked
    {
      var n :| n in unchecked;
      unchecked := unchecked - {n};
      if n in g.nodes && Operational(n) && n !in reachable {
        return Some(UnreachableNode(n));
      }
    }
    var terminals := Terminals(g);
    var todo := reachable;
    while todo != {}
      invariant todo <= reachable
      invariant forall n :: n in reachable && n !in todo ==> HasTerminalPath(g, n)
      decreases todo
    {
      var n :| n in todo;
      todo := todo - {n};
      if n in terminals {
        ReachesSelf(g.Links(), n);
      } else {
        var ok := CanTerminate(g, n, terminals);
        if !ok {
          return Some(NoTerminalPath(n));
        }
      }
    }
    r := None;
  }

  /** The first edge out of START names the start; failing that, `initialization`. */
  function StartNode(g: AgentGraph): string {
    var fromStart := CycleCheck.Outgoing(g.edges, START);
    if fromStart != [] then fromStart[0].toNode
    else if "initialization" in g.nodes then "initialization"
    else START
  }

  ghost predicate EndsRegistered(g: AgentGraph) {
    forall e :: e in g.edges ==> EndpointsRegistered(g, e)
  }

  ghost predicate AllGated(g: AgentGraph) {
    forall n :: n in g.nodes ==> Gated(g, n)
  }

  /** What the validator accepts. */
  ghost predicate Accepted(g: AgentGraph, start: string) {
    && EndsRegistered(g) && AllGated(g) && CycleCheck.Checked(g).None? && StagesInOrder(g)
    && TerminalReachable(g, start)
  }

  /** Runs every check in turn and reports the first failure. */
  method Validate(g: AgentGraph, startNode: Option<string>) returns (r: Option<ValidationError>)
    ensures r.None? <==> Accepted(g, if startNode.Some? then startNode.value else StartNode(g))
    ensures r.None? ==> CycleCheck.CyclesBounded(g)
    ensures r.Some? && r.value.UnregisteredEndpoint? <==> !EndsRegistered(g)
    ensures r.Some? && (r.value.NoIncomingEdge? || r.value.UnguardedEdge?) <==> EndsRegistered(g) && !AllGated(g)
    ensures r.Some? && r.value.BadCycle? <==> EndsRegistered(g) && AllGated(g) && CycleCheck.Checked(g).Some?
    ensures r.Some? && r.value.BadCycle? ==> CycleCheck.Checked(g) == Some(r.value.cause)
    ensures r.Some? && r.value.BadTransition? <==> EndsRegistered(g) && AllGated(g) && CycleCheck.Checked(g).None? && !StagesInOrder(g)
  {
    hide TerminalReachable, CycleCheck.CyclesBounded, CycleCheck.Checked, StagesInOrder, Gated, EndpointsRegistered, CycleCheck.Rejects;
    var start := if startNode.Some? then startNode.value else StartNode(g);
    r := ValidateNodeEndpoints(g);
    if r.Some? {
      return;
    }
    r := ValidateApprovalGates(g);
    if r.Some? {
      return;
    }
    var cycleError, _, _ := CycleCheck.ValidateCyclesAreBounded(g);
    if cycleError.Some? {
      return Some(BadCycle(cycleError.value));
    }
    var bad := ValidateStageTransitions(g);
    if bad.Some? {
      return Some(BadTransition(bad.value));
    }
    r := ValidateTerminalReachability(g, start);
  }

  // ----- what is accepted, on the nodes and edges themselves

  predicate Known(g: AgentGraph, n: string) {
    n in g.nodes || n == "START" || n == "END"
  }

  /** A declared approval gate, or an edge out of a registered APPROVAL-stage node other than START. */
  predicate ComesApproved(g: AgentGraph, e: EdgeContract) {
    e.edgeType.APPROVAL_GATE? || (e.fromNode != "START" && e.fromNode in g.nodes && g.nodes[e.fromNode].stage.APPROVAL?)
  }

  ghost predicate EnteredApproved(g: AgentGraph) {
    && (forall n :: n in g.nodes && g.nodes[n].isSideEffecting ==> exists e :: e in g.edges && e.toNode == n)
    && (forall e :: e in g.edges && e.toNode in g.nodes && g.nodes[e.toNode].isSideEffecting ==> ComesApproved(g, e))
  }

  /** A retry in place, or a transition of the topology that is none. */
  predicate Advances(g: AgentGraph, e: EdgeContract)
    requires e.fromNode in g.nodes && e.toNode in g.nodes
  {
    var from, to := g.nodes[e.fromNode].stage, g.nodes[e.toNode].stage;
    from != TERMINATION && if from == to then e.edgeType == RETRY else ValidateTransition(from, to, false).None?
  }

  /** Besides the cycle check: every end is known, side-effecting nodes are entered, and only with
      approval, stages advance between nodes, an edge enters END, the start is known, all but six
      names are within reach of it, and END or a terminal node is within reach of all that is. */
  lemma AcceptedExactly(g: AgentGraph, start: string)
    ensures Accepted(g, start) <==>
            && CycleCheck.Checked(g).None?
            && (forall e :: e in g.edges ==> Known(g, e.fromNode) && Known(g, e.toNode))
            && EnteredApproved(g)
            && (forall e :: e in g.edges && e.fromNode !in {"START", "END"} && e.toNode !in {"START", "END"} ==>
                  e.fromNode in g.nodes && e.toNode in g.nodes && Advances(g, e))
            && (exists e :: e in g.edges && e.toNode == "END")
            && (start in g.nodes || start == "START")
            && (forall n :: n in g.nodes ==>
                  || n in {"initialization", "termination", "approval_boundary", "human_approval", "START", "END"}
                  || Reaches(g.Links(), start, n))
            && (forall n :: Reaches(g.Links(), start, n) ==>
                  || Reaches(g.Links(), n, "END")
                  || exists t :: t in g.nodes && g.nodes[t].isTerminal && Reaches(g.Links(), n, t))
  {
    GatedExactly(g);
    TerminableExactly(g);
    OperationalExactly();
    forall e | e in g.edges && e.fromNode in g.nodes && e.toNode in g.nodes
      ensures Advances(g, e) <==> ValidateTransition(g.nodes[e.fromNode].stage, g.nodes[e.toNode].stage, e.edgeType == RETRY).None?
    {
      TransitionExactly(g.nodes[e.fromNode].stage, g.nodes[e.toNode].stage, e.edgeType == RETRY);
    }
    hide CycleCheck.Checked, AllGated, EnteredApproved, HasTerminalPath, Reaches, ValidateTransition, Advances, Operational;
  }

  lemma OperationalExactly()
    ensures forall n :: Operational(n) <==> n !in {"initialization", "termination", "approval_boundary", "human_approval", "START", "END"}
  {
  }

  lemma GatedExactly(g: AgentGraph)
    ensures AllGated(g) <==> EnteredApproved(g)
  {
    forall e
      ensures Guarded(g, e) <==> ComesApproved(g, e)
    {
    }
    hide Guarded, ComesApproved;
    if AllGated(g) {
      forall e | e in g.edges && e.toNode in g.nodes && g.nodes[e.toNode].isSideEffecting
        ensures ComesApproved(g, e)
      {
        assert Gated(g, e.toNode);
      }
      forall n | n in g.nodes && g.nodes[n].isSideEffecting
        ensures exists e :: e in g.edges && e.toNode == n
      {
        assert Gated(g, n);
      }
    }
  }

  lemma TerminableExactly(g: AgentGraph)
    ensures forall n :: HasTerminalPath(g, n) <==>
                        || Reaches(g.Links(), n, "END")
                        || exists t :: t in g.nodes && g.nodes[t].isTerminal && Reaches(g.Links(), n, t)
  {
    hide Reaches;
  }

  /** The start is where the first edge out of START leads; if there is none, it is `initialization`
      if that is registered, and otherwise START itself. */
  lemma StartExactly(g: AgentGraph)
    ensures (forall e :: e in g.edges ==> e.fromNode != "START") ==>
              StartNode(g) == if "initialization" in g.nodes then "initialization" else "START"
    ensures forall i :: 0 <= i < |g.edges| && g.edges[i].fromNode == "START" && (forall j :: 0 <= j < i ==> g.edges[j].fromNode != "START") ==>
                          StartNode(g) == g.edges[i].toNode
  {
    forall i | 0 <= i < |g.edges| && g.edges[i].fromNode == "START" && (forall j :: 0 <= j < i ==> g.edges[j].fromNode != "START")
      ensures StartNode(g) == g.edges[i].toNode
    {
      FirstOut(g.edges, "START", i);
    }
    if forall e :: e in g.edges ==> e.fromNode != "START" {
      assert forall e :: e in CycleCheck.Outgoing(g.edges, "START") ==> e in g.edges;
    }
  }

  lemma {:induction false} FirstOut(edges: seq<EdgeContract>, n: string, i: nat)
    requires i < |edges| && edges[i].fromNode == n && forall j :: 0 <= j < i ==> edges[j].fromNode != n
    ensures var out := CycleCheck.Outgoing(edges, n); out != [] && out[0] == edges[i]
  {
    if i > 0 {
      assert edges[0].fromNode != n;
      FirstOut(edges[1..], n, i - 1);
    }
  }

  // ----- approval before side effects

  predicate ApprovalNode(g: AgentGraph, n: string) {
    n != START && n in g.nodes && g.nodes[n].stage == APPROVAL
  }

  predicate SideEffecting(g: AgentGraph, n: string) {
    n in g.nodes && g.nodes[n].isSideEffecting
  }

  /** An approval gate that lets a node of another stage into a side-effecting one. */
  predicate BareGate(g: AgentGraph, e: EdgeContract) {
    e.edgeType == APPROVAL_GATE && SideEffecting(g, e.toNode) && !ApprovalNode(g, e.fromNode)
  }

  /** Some node before the last is of the APPROVAL stage. */
  ghost predicate ApprovedOnTheWay(g: AgentGraph, w: seq<string>) {
    exists i :: 0 <= i < |w| - 1 && ApprovalNode(g, w[i])
  }

  /** Every walk of a hop or more into a side-effecting node, of whatever stage, passes a node of
      the APPROVAL stage before it. */
  ghost predicate ApprovalDominates(g: AgentGraph) {
    forall w :: IsWalk(g.Links(), w) && |w| >= 2 && SideEffecting(g, w[|w| - 1]) ==> ApprovedOnTheWay(g, w)
  }

  lemma LastStepGuarded(g: AgentGraph, w: seq<string>)
    requires AllGated(g)
    requires forall e :: e in g.edges ==> !BareGate(g, e)
    requires IsWalk(g.Links(), w) && |w| >= 2 && SideEffecting(g, w[|w| - 1])
    ensures ApprovalNode(g, w[|w| - 2])
  {
    assert (w[|w| - 2], w[|w| - 2 + 1]) in g.Links();
    var e :| e in g.edges && e.fromNode == w[|w| - 2] && e.toNode == w[|w| - 1];
    assert Gated(g, w[|w| - 1]);
    assert Guarded(g, e);
  }

  lemma BareGateWalk(g: AgentGraph, e: EdgeContract)
    requires e in g.edges && BareGate(g, e)
    ensures !ApprovalDominates(g)
  {
    CycleCheck.EdgeLinks(g, e);
    var w := [e.fromNode, e.toNode];
    assert IsWalk(g.Links(), w);
    assert !ApprovedOnTheWay(g, w);
  }

  /** What the approval-gate check achieves: in a graph it accepts, approval dominates side
      effects exactly if no approval gate into a side-effecting node leaves another stage. */
  lemma GatesDominate(g: AgentGraph)
    requires AllGated(g)
    ensures ApprovalDominates(g) <==> forall e :: e in g.edges ==> !BareGate(g, e)
  {
    hide Gated, BareGate;
    if forall e :: e in g.edges ==> !BareGate(g, e) {
      forall w | IsWalk(g.Links(), w) && |w| >= 2 && SideEffecting(g, w[|w| - 1])
        ensures ApprovedOnTheWay(g, w)
      {
        LastStepGuarded(g, w);
      }
    } else {
      var e :| e in g.edges && BareGate(g, e);
      BareGateWalk(g, e);
    }
  }

  // ----- approval before action

  /** A registered node, other than START and END, of a stage up to APPROVAL. */
  predicate Early(g: AgentGraph, n: string) {
    !Special(n) && n in g.nodes && Rank(StageOf(g, n)) <= Rank(APPROVAL)
  }

  predicate ActsAt(g: AgentGraph, n: string) {
    !Special(n) && n in g.nodes && Acts(StageOf(g, n))
  }

  predicate Quiet(g: AgentGraph, w: seq<string>) {
    forall i :: 0 <= i < |w| ==> !ActsAt(g, w[i])
  }

  /** From an early node, through nodes that do not act. START and END may be among them. */
  ghost predicate QuietWalk(g: AgentGraph, w: seq<string>) {
    IsWalk(g.Links(), w) && Early(g, w[0]) && Quiet(g, w)
  }

  /** A step from a node of the APPROVAL stage to one of the ACTION stage. */
  predicate Crossing(g: AgentGraph, u: string, v: string) {
    ApprovalNode(g, u) && !Special(u) && ActsAt(g, v) && StageOf(g, v) == ACTION
  }

  /** The first node on the walk that acts is of the ACTION stage, and follows one of the APPROVAL stage. */
  ghost predicate CrossesApproval(g: AgentGraph, w: seq<string>) {
    exists k :: 0 < k < |w| && Crossing(g, w[k - 1], w[k]) && Quiet(g, w[..k])
  }

  /** However an early node is left, nothing acts before approval. */
  ghost predicate NothingActsUnapproved(g: AgentGraph) {
    forall w :: IsWalk(g.Links(), w) && Early(g, w[0]) && ActsAt(g, w[|w| - 1]) ==> CrossesApproval(g, w)
  }

  /** An edge out of START or END into a node that acts, itself within quiet reach. */
  ghost predicate Bypass(g: AgentGraph, e: EdgeContract) {
    Special(e.fromNode) && ActsAt(g, e.toNode) && exists w :: QuietWalk(g, w) && w[|w| - 1] == e.fromNode
  }

  function FirstActing(g: AgentGraph, w: seq<string>): (j: nat)
    requires w != [] && ActsAt(g, w[|w| - 1])
    ensures j < |w| && ActsAt(g, w[j]) && Quiet(g, w[..j])
  {
    if ActsAt(g, w[0]) then 0
    else
      var j := 1 + FirstActing(g, w[1..]);
      assert forall i :: 0 < i < j ==> w[i] == w[1..][..j - 1][i - 1];
      j
  }

  lemma WalkPrefix(rel: Relation, w: seq<string>, j: nat)
    requires IsWalk(rel, w) && 0 < j < |w|
    ensures IsWalk(rel, w[..j]) && (w[j - 1], w[j]) in rel
  {
    assert (w[j - 1], w[j - 1 + 1]) in rel;
  }

  lemma CrossesUnlessBypassed(g: AgentGraph, w: seq<string>)
    requires EndsRegistered(g) && StagesInOrder(g) && forall e :: e in g.edges ==> !Bypass(g, e)
    requires IsWalk(g.Links(), w) && Early(g, w[0]) && ActsAt(g, w[|w| - 1])
    ensures CrossesApproval(g, w)
  {
    hide StagesInOrder, EdgeInOrder;
    var j := FirstActing(g, w);
    WalkPrefix(g.Links(), w, j);
    var u, v := w[j - 1], w[j];
    assert w[..j][j - 1] == u && w[..j][0] == w[0];
    var e :| e in g.edges && e.fromNode == u && e.toNode == v;
    assert EndpointsRegistered(g, e);
    assert QuietWalk(g, w[..j]) && !Bypass(g, e);
    LinkInOrder(g, u, v);
  }

  lemma BypassActs(g: AgentGraph, e: EdgeContract)
    requires e in g.edges && Bypass(g, e)
    ensures !NothingActsUnapproved(g)
  {
    var w :| QuietWalk(g, w) && w[|w| - 1] == e.fromNode;
    CycleCheck.EdgeLinks(g, e);
    WalkExtends(g.Links(), w, w[0], e.fromNode, e.toNode);
    var longer := w + [e.toNode];
    forall k | 0 < k < |longer|
      ensures !(Crossing(g, longer[k - 1], longer[k]) && Quiet(g, longer[..k]))
    {
      assert longer[k - 1] == w[k - 1];
      if k < |w| {
        assert longer[k] == w[k];
      }
    }
    assert !CrossesApproval(g, longer);
  }

  /** What the stage check achieves: in a graph it accepts, nothing acts before approval on any
      walk at all exactly if no edge out of START or END bypasses the stages. */
  lemma ApprovalUnlessBypassed(g: AgentGraph)
    requires EndsRegistered(g) && StagesInOrder(g)
    ensures NothingActsUnapproved(g) <==> forall e :: e in g.edges ==> !Bypass(g, e)
  {
    hide EndsRegistered, StagesInOrder, Bypass, Early, ActsAt, CrossesApproval;
    if forall e :: e in g.edges ==> !Bypass(g, e) {
      forall w | IsWalk(g.Links(), w) && Early(g, w[0]) && ActsAt(g, w[|w| - 1])
        ensures CrossesApproval(g, w)
      {
        CrossesUnlessBypassed(g, w);
      }
    } else {
      var e :| e in g.edges && Bypass(g, e);
      BypassActs(g, e);
    }
  }

  /** It is enough that no edge leaves END and none enters START. */
  lemma ClosedEndsSuffice(g: AgentGraph)
    requires EndsRegistered(g) && StagesInOrder(g)
    requires forall e :: e in g.edges ==> e.fromNode != END && e.toNode != START
    ensures NothingActsUnapproved(g)
  {
    hide EndsRegistered, StagesInOrder, NothingActsUnapproved;
    ApprovalUnlessBypassed(g);
    forall e | e in g.edges
      ensures !Bypass(g, e)
    {
      if Bypass(g, e) {
        var w :| QuietWalk(g, w) && w[|w| - 1] == e.fromNode;
        WalkPrefix(g.Links(), w, |w| - 1);
      }
    }
  }

  // ----- graphs the validator accepts

  /** From the start one stays in a set of nodes from each of which an end is reached. */
  lemma ClosedTerminates(g: AgentGraph, start: string, closed: set<string>)
    requires start in g.nodes && start in closed && exists e :: e in g.edges && e.toNode == END
    requires forall n :: n in g.nodes && Operational(n) ==> Reaches(g.Links(), start, n)
    requires forall p :: p in g.Links() && p.0 in closed ==> p.1 in closed
    requires forall n :: n in closed ==> HasTerminalPath(g, n)
    ensures TerminalReachable(g, start)
  {
    hide HasTerminalPath, AgentGraph.Links;
    forall n | Reaches(g.Links(), start, n)
      ensures HasTerminalPath(g, n)
    {
      var w :| Joins(g.Links(), w, start, n);
      ClosedSetHoldsWalk(g.Links(), closed, w);
    }
  }

  /** Two edges one after the other, from a node through `m` to `n`; `first` starts the graph. */
  ghost predicate Chain(g: AgentGraph, first: string, m: string, n: string) {
    && |g.edges| == 2 && g.edges[0].fromNode == first && g.edges[0].toNode == m == g.edges[1].fromNode && g.edges[1].toNode == n
    && first != m && first != n && m != n
  }

  lemma ChainLinks(g: AgentGraph, first: string, m: string, n: string)
    requires Chain(g, first, m, n)
    ensures g.Links() == {(first, m), (m, n)}
    ensures Reaches(g.Links(), first, first) && Reaches(g.Links(), first, m) && Reaches(g.Links(), first, n)
  {
    assert g.edges[0] in g.edges && g.edges[1] in g.edges;
    assert g.Links() == {(first, m), (m, n)};
    ReachesSelf(g.Links(), first);
    ReachesStep(g.Links(), first, first, m);
    ReachesStep(g.Links(), first, m, n);
  }

  /** Such a graph passes the cycle and reachability checks if it meets END and ends where it may. */
  lemma ChainAccepted(g: AgentGraph, first: string, m: string, n: string)
    requires Chain(g, first, m, n) && first in g.nodes && forall k :: !g.Retryable(k)
    requires (m == END && n in g.nodes && g.nodes[n].isTerminal) || (n == END && m in g.nodes && g.nodes[m].isTerminal)
    requires forall k :: k in g.nodes ==> k in {first, m, n}
    ensures CycleCheck.Checked(g).None? && TerminalReachable(g, first)
  {
    hide CycleCheck.Checked, AgentGraph.Retryable, TerminalReachable;
    ChainLinks(g, first, m, n);
    CycleOrder.DescendingAccepted(g, map[n := 0, m := 1, first := 2]);
    ReachesSelf(g.Links(), m);
    ReachesSelf(g.Links(), n);
    assert m in Terminals(g) && n in Terminals(g);
    ClosedTerminates(g, first, {first, m, n});
  }

  const GATE := EdgeContract("a", "initialization", "research_agent", APPROVAL_GATE, "APPROVED", None, false)
  const LEAVE := EdgeContract("b", "research_agent", END, NORMAL, "DEFAULT_COMPLETION", None, true)
  const INITIAL := NodeContract("initialization", INITIALIZATION, false, false, 0, false)

  /** A side-effecting node entered from initialization, by an edge called an approval gate. */
  function SelfStyledGate(): AgentGraph {
    AgentGraph(map["initialization" := INITIAL,
                   "research_agent" := NodeContract("research_agent", RESEARCH, true, false, 0, true)],
               [GATE, LEAVE])
  }

  lemma SelfStyledShape()
    ensures var g := SelfStyledGate();
            && GATE in g.edges && BareGate(g, GATE) && Chain(g, "initialization", "research_agent", END)
            && EndsRegistered(g) && AllGated(g) && StagesInOrder(g)
            && forall n :: n in g.nodes ==> n in {"initialization", "research_agent"} && g.nodes[n].stage != APPROVAL
  {
    assert GATE in SelfStyledGate().edges;
  }

  /** The whole validator accepts it, though it has no node of the APPROVAL stage at all. */
  lemma GateWithoutApproval()
    ensures Accepted(SelfStyledGate(), "initialization") && !ApprovalDominates(SelfStyledGate())
    ensures forall n :: n in SelfStyledGate().nodes ==> SelfStyledGate().nodes[n].stage != APPROVAL
  {
    hide CycleCheck.Checked, TerminalReachable, ApprovalDominates, AllGated, BareGate, StagesInOrder, EndsRegistered, Chain;
    SelfStyledShape();
    ChainAccepted(SelfStyledGate(), "initialization", "research_agent", END);
    BareGateWalk(SelfStyledGate(), GATE);
  }

  const OUT := EdgeContract("a", "initialization", END, TERMINATION_EDGE, "DEFAULT_COMPLETION", None, true)
  const IN := EdgeContract("b", END, "action_agent", NORMAL, "EXPLICIT_SELECTION", None, false)

  /** A node that acts, entered from END. */
  function ActsAfterEnd(): AgentGraph {
    AgentGraph(map["initialization" := INITIAL,
                   "action_agent" := NodeContract("action_agent", ACTION, false, false, 0, true)],
               [OUT, IN])
  }

  lemma ActsAfterEndShape()
    ensures var g := ActsAfterEnd();
            && IN in g.edges && OUT in g.edges && Chain(g, "initialization", END, "action_agent")
            && EndsRegistered(g) && AllGated(g) && StagesInOrder(g)
            && (forall n :: n in g.nodes ==> n in {"initialization", "action_agent"} && g.nodes[n].stage != APPROVAL)
            && Early(g, "initialization") && !ActsAt(g, "initialization") && ActsAt(g, "action_agent")
  {
    assert IN in ActsAfterEnd().edges && OUT in ActsAfterEnd().edges;
  }

  /** The whole validator accepts it, though a walk through END acts with no approval before it. */
  lemma WalkThroughEndEscapes()
    ensures Accepted(ActsAfterEnd(), "initialization") && !NothingActsUnapproved(ActsAfterEnd())
    ensures forall n :: n in ActsAfterEnd().nodes ==> ActsAfterEnd().nodes[n].stage != APPROVAL
  {
    hide CycleCheck.Checked, TerminalReachable, AllGated, StagesInOrder, EndsRegistered, Chain, NothingActsUnapproved, Early;
    ActsAfterEndShape();
    var g := ActsAfterEnd();
    ChainAccepted(g, "initialization", END, "action_agent");
    CycleCheck.EdgeLinks(g, OUT);
    assert QuietWalk(g, ["initialization", END]);
    BypassActs(g, IN);
  }

  // ----- the ids of the edges decide

  const RETRY_OUT := EdgeContract("a", "initialization", "warm_up", RETRY, "RETRY", None, false)
  const RETRY_BACK := EdgeContract("b", "warm_up", "initialization", RETRY, "RETRY", None, false)
  const DONE := EdgeContract("c", "initialization", END, NORMAL, "DEFAULT_COMPLETION", None, true)

  /** Two nodes of one stage that retry one another, only the first of them retryable. */
  function RetryPair(): AgentGraph {
    AgentGraph(map["initialization" := NodeContract("initialization", INITIALIZATION, false, true, 1, false),
                   "warm_up" := NodeContract("warm_up", INITIALIZATION, false, false, 0, false)],
               [RETRY_OUT, RETRY_BACK, DONE])
  }

  lemma RetryPairShape()
    ensures var g := RetryPair();
            && CycleOrder.InIdOrder(g.edges) && CycleOrder.Mixed(g, "initialization", "warm_up", RETRY_OUT, RETRY_BACK, DONE)
            && EndsRegistered(g) && AllGated(g) && StagesInOrder(g) && StartNode(g) == "initialization"
            && (forall n :: n in g.nodes <==> n in {"initialization", "warm_up"})
  {
  }

  lemma RetryPairTerminates(g: AgentGraph, a: string, b: string, out: EdgeContract, back: EdgeContract, last: EdgeContract)
    requires CycleOrder.Mixed(g, a, b, out, back, last) && a in g.nodes && forall n :: n in g.nodes ==> n in {a, b}
    ensures TerminalReachable(g, a)
  {
    hide CycleOrder.Mixed, AgentGraph.Links, TerminalReachable, Operational;
    CycleOrder.MixedLinks(g, a, b, out, back, last);
    ReachesSelf(g.Links(), a);
    ReachesSelf(g.Links(), b);
    ReachesSelf(g.Links(), END);
    ReachesStep(g.Links(), a, a, b);
    ReachesStep(g.Links(), b, b, a);
    ReachesStep(g.Links(), a, a, END);
    ReachesStep(g.Links(), b, a, END);
    assert END in Terminals(g) && last.toNode == END;
    ClosedTerminates(g, a, {a, b, END});
  }

  /** The whole validator accepts this graph, and rejects it under some other choice of edge ids. */
  lemma IdsDecide()
    ensures CycleOrder.InIdOrder(RetryPair().edges) && Accepted(RetryPair(), StartNode(RetryPair()))
    ensures exists h :: CycleOrder.Renamed(RetryPair(), h) && forall start :: !Accepted(h, start)
  {
    hide RetryPair, CycleOrder.InIdOrder, CycleOrder.Mixed, CycleOrder.Renamed, CycleCheck.Checked, TerminalReachable, AllGated, StagesInOrder, EndsRegistered, StartNode;
    RetryPairShape();
    CycleOrder.IdsMatter(RetryPair(), "initialization", "warm_up", RETRY_OUT, RETRY_BACK, DONE);
    RetryPairTerminates(RetryPair(), "initialization", "warm_up", RETRY_OUT, RETRY_BACK, DONE);
  }
}
