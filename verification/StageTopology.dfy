/** The pipeline's stage topology, and what it forces on every walk of an accepted graph. */
module StageTopology {
  import opened Results
  import opened Graphs
  import opened AgentModel

  function AllowedNext(s: Stage): set<Stage> {
    match s
    case INITIALIZATION => {RESEARCH, RISK_ASSESSMENT, APPROVAL, TERMINATION}
    case RESEARCH => {RISK_ASSESSMENT, TERMINATION}
    case RISK_ASSESSMENT => {PREDICTION, SCENARIO_ANALYSIS, DECISION, TERMINATION}
    case PREDICTION => {SCENARIO_ANALYSIS, DECISION, TERMINATION}
    case SCENARIO_ANALYSIS => {SIMULATION, DECISION, TERMINATION}
    case SIMULATION => {OPTIMIZATION, DECISION, TERMINATION}
    case OPTIMIZATION => {DECISION, TERMINATION}
    case DECISION => {APPROVAL, TERMINATION}
    case APPROVAL => {ACTION, TERMINATION}
    case ACTION => {VERIFICATION, TERMINATION}
    case VERIFICATION => {TERMINATION}
    case TERMINATION => {}
  }

  datatype TransitionError = FromTerminalStage | SelfLoopWithoutRetry | IllegalJump

  function ValidateTransition(current: Stage, destination: Stage, isRetry: bool): Option<TransitionError> {
    if current == TERMINATION then Some(FromTerminalStage)
    else if isRetry && current == destination then None
    else if current == destination then Some(SelfLoopWithoutRetry)
    else if destination !in AllowedNext(current) then Some(IllegalJump)
    else None
  }

  /** The position of a stage in the pipeline. */
  function Rank(s: Stage): nat {
    match s
    case INITIALIZATION => 0
    case RESEARCH => 1
    case RISK_ASSESSMENT => 2
    case PREDICTION => 3
    case SCENARIO_ANALYSIS => 4
    case SIMULATION => 5
    case OPTIMIZATION => 6
    case DECISION => 7
    case APPROVAL => 8
    case ACTION => 9
    case VERIFICATION => 10
    case TERMINATION => 11
  }

  /** A valid transition climbs the ranks, or stays in its stage by an explicit retry. */
  lemma TransitionClimbs(current: Stage, destination: Stage, isRetry: bool)
    requires ValidateTransition(current, destination, isRetry).None?
    ensures Rank(current) < Rank(destination) || (current == destination && isRetry)
  {
  }

  /** The topology as a law: a stage is followed by the next one, by termination, from risk
      assessment up to optimization by the decision, and by three shortcuts; only an explicit retry
      stays, and nothing leaves termination. */
  lemma TransitionExactly(current: Stage, destination: Stage, isRetry: bool)
    ensures ValidateTransition(current, destination, isRetry).None? <==>
            && current != TERMINATION
            && (|| Rank(destination) == Rank(current) + 1
                || destination == TERMINATION
                || (2 <= Rank(current) <= 6 && destination == DECISION)
                || (current == INITIALIZATION && (destination == RISK_ASSESSMENT || destination == APPROVAL))
                || (current == RISK_ASSESSMENT && destination == SCENARIO_ANALYSIS)
                || (current == destination && isRetry))
    ensures ValidateTransition(current, destination, isRetry)
            == if current == TERMINATION then Some(FromTerminalStage)
               else if current == destination then (if isRetry then None else Some(SelfLoopWithoutRetry))
               else if ValidateTransition(current, destination, false).None? then None else Some(IllegalJump)
  {
  }

  predicate EdgeInOrder(g: AgentGraph, e: EdgeContract) {
    !Special(e.fromNode) && !Special(e.toNode) ==>
      && e.fromNode in g.nodes && e.toNode in g.nodes
      && ValidateTransition(g.nodes[e.fromNode].stage, g.nodes[e.toNode].stage, e.edgeType == RETRY).None?
  }

  predicate StagesInOrder(g: AgentGraph) {
    forall e :: e in g.edges ==> EdgeInOrder(g, e)
  }

  /** Edges laid end to end, none touching START or END. */
  ghost predicate EdgeWalk(g: AgentGraph, es: seq<EdgeContract>) {
    && (forall e :: e in es ==> e in g.edges && !Special(e.fromNode) && !Special(e.toNode))
    && (forall i :: 0 <= i < |es| - 1 ==> es[i].toNode == es[i + 1].fromNode)
  }

  function NonRetryEdges(es: seq<EdgeContract>): nat {
    if es == [] then 0 else (if es[0].edgeType == RETRY then 0 else 1) + NonRetryEdges(es[1..])
  }

  function StageOf(g: AgentGraph, n: string): Stage
    requires n in g.nodes
  {
    g.nodes[n].stage
  }

  function StageChanges(g: AgentGraph, es: seq<EdgeContract>): nat
    requires forall e :: e in es ==> e.fromNode in g.nodes && e.toNode in g.nodes
  {
    if es == [] then 0
    else (if StageOf(g, es[0].fromNode) == StageOf(g, es[0].toNode) then 0 else 1) + StageChanges(g, es[1..])
  }

  /** Along any walk the rank climbs by at least one for every change of stage, and only
      RETRY edges leave the stage unchanged. */
  lemma {:induction false} WalkClimbs(g: AgentGraph, es: seq<EdgeContract>)
    requires StagesInOrder(g) && EdgeWalk(g, es) && es != []
    ensures forall e :: e in es ==> e.fromNode in g.nodes && e.toNode in g.nodes
    ensures Rank(StageOf(g, es[0].fromNode)) + StageChanges(g, es) <= Rank(StageOf(g, es[|es| - 1].toNode))
    ensures NonRetryEdges(es) <= StageChanges(g, es)
    decreases |es|
  {
    hide Rank, AllowedNext, ValidateTransition;
    forall e | e in es
      ensures e.fromNode in g.nodes && e.toNode in g.nodes
    {
      assert EdgeInOrder(g, e);
    }
    assert EdgeInOrder(g, es[0]);
    TransitionClimbs(StageOf(g, es[0].fromNode), StageOf(g, es[0].toNode), es[0].edgeType == RETRY);
    if |es| > 1 {
      WalkClimbs(g, es[1..]);
    } else {
      assert es[1..] == [];
    }
  }

  /** However long it is, a walk makes at most eleven hops that are not retries. */
  lemma WalksAreShort(g: AgentGraph, es: seq<EdgeContract>)
    requires StagesInOrder(g) && EdgeWalk(g, es)
    ensures NonRetryEdges(es) <= 11
  {
    if es != [] {
      WalkClimbs(g, es);
    }
  }

  lemma {:induction false} NoStageChanges(g: AgentGraph, es: seq<EdgeContract>)
    requires forall e :: e in es ==> e.fromNode in g.nodes && e.toNode in g.nodes
    requires StageChanges(g, es) == 0 && NonRetryEdges(es) == 0
    ensures forall e :: e in es ==> e.edgeType == RETRY && StageOf(g, e.fromNode) == StageOf(g, e.toNode)
    decreases |es|
  {
    if es != [] {
      NoStageChanges(g, es[1..]);
      assert es == [es[0]] + es[1..];
    }
  }

  /** A cycle away from START and END stays in one stage and consists of RETRY edges. */
  lemma CyclesRetryInPlace(g: AgentGraph, es: seq<EdgeContract>)
    requires StagesInOrder(g) && EdgeWalk(g, es) && es != []
    requires es[|es| - 1].toNode == es[0].fromNode
    ensures forall e :: e in es ==>
                          && e.edgeType == RETRY && e.fromNode in g.nodes && e.toNode in g.nodes
                          && StageOf(g, e.fromNode) == StageOf(g, e.toNode) == StageOf(g, es[0].fromNode)
  {
    WalkClimbs(g, es);
    NoStageChanges(g, es);
    OneStage(g, es);
  }

  lemma {:induction false} OneStage(g: AgentGraph, es: seq<EdgeContract>)
    requires EdgeWalk(g, es) && es != []
    requires forall e :: e in es ==>
                           e.fromNode in g.nodes && e.toNode in g.nodes && StageOf(g, e.fromNode) == StageOf(g, e.toNode)
    ensures forall e :: e in es ==> StageOf(g, e.fromNode) == StageOf(g, es[0].fromNode)
    decreases |es|
  {
    if |es| > 1 {
      OneStage(g, es[1..]);
    }
    assert es == [es[0]] + es[1..];
  }

  /** Registered nodes only, each joined to the next by an edge of the graph. */
  ghost predicate RegisteredWalk(g: AgentGraph, w: seq<string>) {
    IsWalk(g.Links(), w) && forall i :: 0 <= i < |w| ==> w[i] in g.nodes && !Special(w[i])
  }

  predicate Acts(s: Stage) {
    s == ACTION || s == VERIFICATION
  }

  lemma LinkInOrder(g: AgentGraph, u: string, v: string)
    requires StagesInOrder(g) && (u, v) in g.Links()
    requires u in g.nodes && v in g.nodes && !Special(u) && !Special(v)
    ensures StageOf(g, u) != TERMINATION
    ensures StageOf(g, v) == StageOf(g, u) || StageOf(g, v) in AllowedNext(StageOf(g, u))
  {
    var e :| e in g.edges && e.fromNode == u && e.toNode == v;
    assert EdgeInOrder(g, e);
  }

  /** Approval dominates action: a walk that starts no later than the approval stage and
      ends in a node that acts crosses from an APPROVAL node to an ACTION node before any
      node on it acts. */
  lemma {:induction false} ApprovalPrecedesAction(g: AgentGraph, w: seq<string>) returns (k: nat)
    requires StagesInOrder(g) && RegisteredWalk(g, w)
    requires Rank(StageOf(g, w[0])) <= Rank(APPROVAL) && Acts(StageOf(g, w[|w| - 1]))
    ensures k + 1 < |w| && StageOf(g, w[k]) == APPROVAL && StageOf(g, w[k + 1]) == ACTION
    ensures forall i :: 0 <= i <= k ==> !Acts(StageOf(g, w[i]))
    decreases |w|
  {
    LinkInOrder(g, w[0], w[1]);
    if StageOf(g, w[1]) == ACTION {
      k := 0;
    } else {
      if |w| > 2 {
        LinkInOrder(g, w[1], w[2]);
      }
      var j := ApprovalPrecedesAction(g, w[1..]);
      k := j + 1;
      forall i | 0 <= i <= k
        ensures !Acts(StageOf(g, w[i]))
      {
        if i > 0 {
          assert w[i] == w[1..][i - 1];
        }
      }
    }
  }

  method ValidateStageTransitions(g: AgentGraph) returns (bad: Option<EdgeContract>)
    ensures bad.None? <==> StagesInOrder(g)
    ensures bad.Some? ==> bad.value in g.edges && !EdgeInOrder(g, bad.value)
  {
    for i := 0 to |g.edges|
      invariant forall j :: 0 <= j < i ==> EdgeInOrder(g, g.edges[j])
    {
      if !EdgeInOrder(g, g.edges[i]) {
        return Some(g.edges[i]);
      }
    }
    bad := None;
  }
}
