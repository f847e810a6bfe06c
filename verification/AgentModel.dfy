/** The contracts of the agent graph: stages, nodes and edges. */
module AgentModel {
  import opened Results
  import opened Graphs

  datatype Stage =
    | INITIALIZATION | RESEARCH | RISK_ASSESSMENT | PREDICTION | SCENARIO_ANALYSIS | SIMULATION
    | OPTIMIZATION | DECISION | APPROVAL | ACTION | VERIFICATION | TERMINATION

  datatype LifecycleStatus =
    | INITIALIZING | RUNNING | WAITING_FOR_APPROVAL | COMPLETED | FAILED | BLOCKED | NO_ACTION_REQUIRED | MAX_STEPS_REACHED

  datatype EdgeType = NORMAL | CONDITIONAL | RETRY | FAILURE | TERMINATION_EDGE | APPROVAL_GATE

  datatype NodeContract = NodeContract(
    nodeId: string,
    stage: Stage,
    isSideEffecting: bool,
    retryable: bool,
    maxRetries: nat,
    isTerminal: bool)

  datatype EdgeContract = EdgeContract(
    edgeId: string,
    fromNode: string,
    toNode: string,
    edgeType: EdgeType,
    reasonCode: string,
    conditionCode: Option<string>,
    isTerminal: bool)

  /** A node registry, keyed by node id, and a listing of the registered edges. */
  datatype AgentGraph = AgentGraph(nodes: map<string, NodeContract>, edges: seq<EdgeContract>)
  {
    predicate Retryable(n: string) {
      n in nodes && nodes[n].retryable && nodes[n].maxRetries > 0
    }

    ghost function Links(): Relation {
      set e | e in edges :: (e.fromNode, e.toNode)
    }
  }

  const START := "START"
  const END := "END"

  predicate Special(n: string) {
    n == START || n == END
  }
}
