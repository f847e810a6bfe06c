/** Routing between nodes, the foundational nodes, and runs of the compiled graph. */
module Routing {
  import opened Results
  import opened AgentModel
  import opened CycleCheck
  import opened StateContract
  import opened Execution
  import opened Text

  const INITIAL_NODE := "initialization"
  const FINAL_NODE := "termination"
  const BOUNDARY_NODE := "approval_boundary"
  const ERRORS := Plain("errors")

  /** What the evaluator consults: the allowlist, the registered nodes, the registered edges
      and the registered condition predicates. */
  datatype Router = Router(
    maxSteps: int,
    allowlist: set<string>,
    registered: set<string>,
    edges: seq<EdgeContract>,
    conditions: map<string, State -> bool>)

  datatype Reason =
    | MaxSteps | ExecutionError | AwaitingApproval | RepeatedNodeLoop | ExplicitSelection | DefaultCompletion
    | OfEdge(code: string)

  datatype Decision = Decision(nextNode: string, reason: Reason, selectedEdge: Option<string>, terminates: bool)

  datatype RouteError = NotAllowed | NotRegistered | UnknownCondition

  predicate Conditional(e: EdgeContract) {
    e.conditionCode.Some? && e.conditionCode.value != ""
  }

  /** Whether the edge may be followed; its condition must be known. */
  predicate Open(r: Router, s: State, e: EdgeContract)
    requires Known(r, e)
  {
    if Conditional(e) then r.conditions[e.conditionCode.value](s) else e.edgeType == NORMAL
  }

  predicate Known(r: Router, e: EdgeContract) {
    Conditional(e) ==> e.conditionCode.value in r.conditions
  }

  /** The index of the first edge that is open, or whose condition is unknown. */
  function FirstOpen(r: Router, s: State, es: seq<EdgeContract>, i: nat): (k: nat)
    requires i <= |es|
    ensures i <= k <= |es|
    decreases |es| - i
  {
    if i == |es| || !Known(r, es[i]) || Open(r, s, es[i]) then i else FirstOpen(r, s, es, i + 1)
  }

  function FirstTo(es: seq<EdgeContract>, target: string): Option<string> {
    if es == [] then None else if es[0].toNode == target then Some(es[0].edgeId) else FirstTo(es[1..], target)
  }

  /** The node an agent asked for: the selected route, else the next node. */
  function Requested(s: State): string {
    if Get(s, SELECTED_ROUTE).Str? && s[SELECTED_ROUTE].text != "" then s[SELECTED_ROUTE].text
    else if Get(s, NEXT_NODE).Str? then s[NEXT_NODE].text
    else ""
  }

  function CurrentNode(s: State): string {
    if Get(s, CURRENT_NODE).Str? then s[CURRENT_NODE].text else ""
  }

  /** The last three routing events all went to this node. */
  predicate Looping(s: State, target: string) {
    var h := HistoryOf(s);
    |h| >= 3 && h[|h| - 1].toNode == target && h[|h| - 2].toNode == target && h[|h| - 3].toNode == target
  }

  predicate Failing(s: State) {
    Truthy(Get(s, ERRORS)) || Get(s, STATUS) == Lifecycle(FAILED)
  }

  predicate AtBoundary(s: State) {
    Truthy(Get(s, REQUIRES_HUMAN_APPROVAL)) || Get(s, STATUS) == Lifecycle(WAITING_FOR_APPROVAL)
  }

  function Final(reason: Reason): Decision {
    Decision(FINAL_NODE, reason, None, true)
  }

  function OutgoingFrom(r: Router, s: State): seq<EdgeContract> {
    if CurrentNode(s) == "" then [] else Outgoing(r.edges, CurrentNode(s))
  }

  function Decide(r: Router, s: State): Result<Decision, RouteError> {
    var target := Requested(s);
    if StepCount(s) >= r.maxSteps then Ok(Final(MaxSteps))
    else if Failing(s) then Ok(Final(ExecutionError))
    else if AtBoundary(s) then Ok(Final(AwaitingApproval))
    else if target != "" then
      if Looping(s, target) && target != FINAL_NODE then Ok(Final(RepeatedNodeLoop))
      else if target !in r.allowlist then Err(NotAllowed)
      else if target !in r.registered && target != FINAL_NODE then Err(NotRegistered)
      else Ok(Decision(target, ExplicitSelection, FirstTo(OutgoingFrom(r, s), target), target == FINAL_NODE))
    else
      var es := OutgoingFrom(r, s);
      var k := FirstOpen(r, s, es, 0);
      if k == |es| then Ok(Final(DefaultCompletion))
      else if !Known(r, es[k]) then Err(UnknownCondition)
      else Ok(Decision(es[k].toNode, OfEdge(es[k].reasonCode), Some(es[k].edgeId), es[k].toNode == FINAL_NODE || es[k].isTerminal))
  }

  /** The search stops at the first edge that is open or has an unknown condition. */
  lemma {:induction false} FirstOpenIsFirst(r: Router, s: State, es: seq<EdgeContract>, i: nat)
    requires i <= |es|
    ensures var k := FirstOpen(r, s, es, i);
            && (forall j :: i <= j < k ==> Known(r, es[j]) && !Open(r, s, es[j]))
            && (k < |es| ==> Known(r, es[k]) ==> Open(r, s, es[k]))
    decreases |es| - i
  {
    if i < |es| && Known(r, es[i]) && !Open(r, s, es[i]) {
      FirstOpenIsFirst(r, s, es, i + 1);
    }
  }

  /** The code's search for the edge that was asked for. */
  method MatchEdge(es: seq<EdgeContract>, target: string) returns (id: Option<string>)
    ensures id == FirstTo(es, target)
  {
    for i := 0 to |es|
      invariant FirstTo(es, target) == FirstTo(es[i..], target)
    {
      if es[i].toNode == target {
        return Some(es[i].edgeId);
      }
    }
    id := None;
  }

  /** The code's search for an edge to follow. */
  method SearchOpen(r: Router, s: State, es: seq<EdgeContract>) returns (k: nat)
    ensures k == FirstOpen(r, s, es, 0)
  {
    hide Open, Known;
    for i := 0 to |es|
      invariant FirstOpen(r, s, es, 0) == FirstOpen(r, s, es, i)
    {
      if !Known(r, es[i]) || Open(r, s, es[i]) {
        return i;
      }
    }
    k := |es|;
  }

  /** The evaluator, with its two searches over the edges leaving the current node. */
  method Evaluate(r: Router, s: State) returns (d: Result<Decision, RouteError>)
    ensures d == Decide(r, s)
  {
    hide Outgoing, Failing, AtBoundary, Looping, StepCount, FirstOpen, FirstTo, OutgoingFrom, Requested, Open, Known;
    if StepCount(s) >= r.maxSteps {
      return Ok(Final(MaxSteps));
    }
    if Failing(s) {
      return Ok(Final(ExecutionError));
    }
    if AtBoundary(s) {
      return Ok(Final(AwaitingApproval));
    }
    var target := Requested(s);
    var es := OutgoingFrom(r, s);
    if target != "" {
      if Looping(s, target) && target != FINAL_NODE {
        return Ok(Final(RepeatedNodeLoop));
      }
      if target !in r.allowlist {
        return Err(NotAllowed);
      }
      if target !in r.registered && target != FINAL_NODE {
        return Err(NotRegistered);
      }
      var matched := MatchEdge(es, target);
      return Ok(Decision(target, ExplicitSelection, matched, target == FINAL_NODE));
    }
    var k := SearchOpen(r, s, es);
    if k == |es| {
      return Ok(Final(DefaultCompletion));
    }
    if !Known(r, es[k]) {
      return Err(UnknownCondition);
    }
    d := Ok(Decision(es[k].toNode, OfEdge(es[k].reasonCode), Some(es[k].edgeId), es[k].toNode == FINAL_NODE || es[k].isTerminal));
  }

  /** Every decision is to terminate, to go to an allowlisted registered node that was asked
      for, or to follow an open registered edge; and it terminates whenever the budget is
      spent, the run is failing, or approval is due. */
  lemma FailsClosed(r: Router, s: State)
    requires Decide(r, s).Ok?
    ensures var next := Decide(r, s).value.nextNode;
            || next == FINAL_NODE
            || (next == Requested(s) && next in r.allowlist && next in r.registered && !Looping(s, next))
            || (exists e :: e in r.edges && e.fromNode == CurrentNode(s) && e.toNode == next && Known(r, e) && Open(r, s, e))
    ensures StepCount(s) >= r.maxSteps || Failing(s) || AtBoundary(s) ==> Decide(r, s).value.nextNode == FINAL_NODE
  {
    var es := OutgoingFrom(r, s);
    FirstOpenIsFirst(r, s, es, 0);
    var k := FirstOpen(r, s, es, 0);
    assert k < |es| ==> es[k] in es && es[k] in r.edges && es[k].fromNode == CurrentNode(s);
    hide Outgoing, FirstOpen, Failing, AtBoundary, Looping, StepCount, Requested, Open;
  }

  // ----- the decision, told from the state and the edge list

  /** What an agent asked for: by `selected_route`, or else by `next_node`. */
  ghost predicate Asked(s: State, target: string) {
    target != "" && if SELECTED_ROUTE in s && s[SELECTED_ROUTE].Str? && s[SELECTED_ROUTE].text != "" then s[SELECTED_ROUTE] == Str(target)
                    else NEXT_NODE in s && s[NEXT_NODE] == Str(target)
  }

  /** The edge leaves the current node, which has a name. */
  predicate Leaves(s: State, e: EdgeContract) {
    e.fromNode != "" && CURRENT_NODE in s && s[CURRENT_NODE] == Str(e.fromNode)
  }

  /** The edge's condition is unknown or holds, or it has none and is a NORMAL edge. */
  predicate Ready(r: Router, s: State, e: EdgeContract) {
    if e.conditionCode.Some? && e.conditionCode.value != "" then
      e.conditionCode.value in r.conditions ==> r.conditions[e.conditionCode.value](s)
    else e.edgeType == NORMAL
  }

  /** The first edge of the registry with a property. */
  ghost predicate First(r: Router, i: int, p: EdgeContract -> bool) {
    0 <= i < |r.edges| && p(r.edges[i]) && forall j :: 0 <= j < i ==> !p(r.edges[j])
  }

  function LeavesTo(s: State, target: string): EdgeContract -> bool {
    (e: EdgeContract) => Leaves(s, e) && e.toNode == target
  }

  function LeavesReady(r: Router, s: State): EdgeContract -> bool {
    (e: EdgeContract) => Leaves(s, e) && Ready(r, s, e)
  }

  /** The last three events all led to this node. */
  predicate ThriceIn(s: State, target: string) {
    && ROUTE_HISTORY in s && s[ROUTE_HISTORY].History? && |s[ROUTE_HISTORY].events| >= 3
    && forall i :: |s[ROUTE_HISTORY].events| - 3 <= i < |s[ROUTE_HISTORY].events| ==> s[ROUTE_HISTORY].events[i].toNode == target
  }

  lemma OutgoingStep(edges: seq<EdgeContract>, n: string)
    requires edges != []
    ensures Outgoing(edges, n) == edges[..if edges[0].fromNode == n then 1 else 0] + Outgoing(edges[1..], n)
  {
  }

  /** Where an edge out of a node stands in the registry. */
  lemma {:induction false} OutgoingPlace(edges: seq<EdgeContract>, n: string, k: nat) returns (i: nat)
    requires k < |Outgoing(edges, n)|
    ensures i < |edges| && edges[i] == Outgoing(edges, n)[k] && Outgoing(edges[..i], n) == Outgoing(edges, n)[..k]
    decreases |edges|
  {
    assert edges != [];
    OutgoingStep(edges, n);
    hide Outgoing;
    var first := if edges[0].fromNode == n then 1 else 0;
    if k < first {
      i := 0;
    } else {
      var j := OutgoingPlace(edges[1..], n, k - first);
      i := j + 1;
      assert edges[..i][1..] == edges[1..][..j] && edges[..i][..first] == edges[..first];
      OutgoingStep(edges[..i], n);
      TakenAfter(edges[..first], Outgoing(edges[1..], n), k);
    }
  }

  lemma TakenAfter<T>(s: seq<T>, t: seq<T>, k: nat)
    requires |s| <= k <= |s| + |t|
    ensures (s + t)[..k] == s + t[..k - |s|]
  {
  }

  lemma NoneBefore(edges: seq<EdgeContract>, n: string, k: nat, i: nat, p: EdgeContract -> bool)
    requires i < |edges| && k < |Outgoing(edges, n)| && Outgoing(edges[..i], n) == Outgoing(edges, n)[..k]
    requires forall e :: e in Outgoing(edges, n)[..k] ==> !p(e)
    requires forall e :: p(e) ==> e.fromNode == n
    ensures forall j :: 0 <= j < i ==> !p(edges[j])
  {
    forall j | 0 <= j < i
      ensures !p(edges[j])
    {
      assert edges[j] in edges[..i];
      assert edges[j].fromNode == n ==> edges[j] in Outgoing(edges[..i], n);
    }
  }

  lemma {:induction false} NoneTo(es: seq<EdgeContract>, target: string)
    ensures FirstTo(es, target).None? <==> forall e :: e in es ==> e.toNode != target
  {
    if es != [] {
      NoneTo(es[1..], target);
      assert es == [es[0]] + es[1..];
    }
  }

  lemma {:induction false} FirstToIs(es: seq<EdgeContract>, target: string) returns (k: nat)
    requires FirstTo(es, target).Some?
    ensures k < |es| && es[k].toNode == target && FirstTo(es, target) == Some(es[k].edgeId)
    ensures forall e :: e in es[..k] ==> e.toNode != target
    decreases |es|
  {
    if es[0].toNode == target {
      k := 0;
    } else {
      var j := FirstToIs(es[1..], target);
      k := j + 1;
      assert es[..k] == [es[0]] + es[1..][..j];
    }
  }

  lemma OutgoingLeaves(r: Router, s: State, e: EdgeContract)
    ensures e in OutgoingFrom(r, s) <==> e in r.edges && Leaves(s, e)
    ensures OutgoingFrom(r, s) != [] ==> OutgoingFrom(r, s) == Outgoing(r.edges, CurrentNode(s)) && CurrentNode(s) != ""
    ensures Leaves(s, e) <==> CurrentNode(s) != "" && e.fromNode == CurrentNode(s)
  {
  }

  /** The edge found for a node asked for is the first in the registry that leads there. */
  lemma MatchedExactly(r: Router, s: State, target: string)
    ensures FirstTo(OutgoingFrom(r, s), target).None? <==> forall e :: e in r.edges ==> !LeavesTo(s, target)(e)
    ensures FirstTo(OutgoingFrom(r, s), target).Some? ==>
              exists i :: First(r, i, LeavesTo(s, target)) && FirstTo(OutgoingFrom(r, s), target) == Some(r.edges[i].edgeId)
  {
    hide OutgoingFrom, Leaves, FirstTo, CurrentNode;
    var es := OutgoingFrom(r, s);
    forall e
      ensures e in es <==> e in r.edges && Leaves(s, e)
      ensures es != [] ==> es == Outgoing(r.edges, CurrentNode(s))
      ensures Leaves(s, e) ==> e.fromNode == CurrentNode(s)
    {
      OutgoingLeaves(r, s, e);
    }
    NoneTo(es, target);
    if FirstTo(es, target).Some? {
      var k := FirstToIs(es, target);
      var i := OutgoingPlace(r.edges, CurrentNode(s), k);
      assert es[k] in es;
      NoneBefore(r.edges, CurrentNode(s), k, i, LeavesTo(s, target));
      assert First(r, i, LeavesTo(s, target));
    }
  }

  lemma ReadyOpens(r: Router, s: State, e: EdgeContract)
    ensures Ready(r, s, e) <==> !Known(r, e) || Open(r, s, e)
  {
  }

  /** The edge followed unasked is the first in the registry that leaves the current node and is ready. */
  lemma FollowedExactly(r: Router, s: State)
    ensures var (es, k) := (OutgoingFrom(r, s), FirstOpen(r, s, OutgoingFrom(r, s), 0));
            && (k == |es| <==> forall e :: e in r.edges ==> !LeavesReady(r, s)(e))
            && (k < |es| ==> exists i :: First(r, i, LeavesReady(r, s)) && r.edges[i] == es[k])
  {
    hide OutgoingFrom, Leaves, FirstOpen, CurrentNode, Known, Open, Ready;
    var es := OutgoingFrom(r, s);
    forall e
      ensures e in es <==> e in r.edges && Leaves(s, e)
      ensures es != [] ==> es == Outgoing(r.edges, CurrentNode(s))
      ensures Leaves(s, e) ==> e.fromNode == CurrentNode(s)
      ensures Ready(r, s, e) <==> !Known(r, e) || Open(r, s, e)
    {
      OutgoingLeaves(r, s, e);
      ReadyOpens(r, s, e);
    }
    FirstOpenIsFirst(r, s, es, 0);
    var k := FirstOpen(r, s, es, 0);
    if k < |es| {
      var i := OutgoingPlace(r.edges, CurrentNode(s), k);
      assert es[k] in es;
      NoneBefore(r.edges, CurrentNode(s), k, i, LeavesReady(r, s));
      assert First(r, i, LeavesReady(r, s));
    }
  }

  /** The whole decision. */
  lemma DecidedExactly(r: Router, s: State)
    ensures var d := Decide(r, s);
            if r.maxSteps <= (if STEP_COUNT in s && s[STEP_COUNT].Count? then s[STEP_COUNT].count else 0)
            then d == Ok(Decision("termination", MaxSteps, None, true))
            else if Truthy(Get(s, Plain("errors"))) || Get(s, STATUS) == Lifecycle(FAILED)
            then d == Ok(Decision("termination", ExecutionError, None, true))
            else if Truthy(Get(s, REQUIRES_HUMAN_APPROVAL)) || Get(s, STATUS) == Lifecycle(WAITING_FOR_APPROVAL)
            then d == Ok(Decision("termination", AwaitingApproval, None, true))
            else if exists target :: Asked(s, target)
            then exists target :: Asked(s, target) && Granted(r, s, target, d)
            else Followed(r, s, d)
  {
    hide FirstTo, OutgoingFrom, FirstOpen, Truthy, Known, Open, ThriceIn, Looping, LeavesReady, LeavesTo;
    AskedIs(s);
    MatchedExactly(r, s, Requested(s));
    FollowedExactly(r, s);
    LoopingThrice(s, Requested(s));
    UnknownOpens(r, s);
  }

  lemma UnknownOpens(r: Router, s: State)
    ensures forall e :: Known(r, e) <==> (e.conditionCode.Some? && e.conditionCode.value != "" ==> e.conditionCode.value in r.conditions)
  {
  }

  lemma AskedIs(s: State)
    ensures Requested(s) != "" ==> Asked(s, Requested(s))
    ensures forall target :: Asked(s, target) ==> target == Requested(s)
  {
  }

  lemma LoopingThrice(s: State, target: string)
    ensures Looping(s, target) <==> ThriceIn(s, target)
  {
  }

  /** What becomes of a node asked for. */
  ghost predicate Granted(r: Router, s: State, target: string, d: Result<Decision, RouteError>) {
    if ThriceIn(s, target) && target != "termination" then d == Ok(Decision("termination", RepeatedNodeLoop, None, true))
    else if target !in r.allowlist then d == Err(NotAllowed)
    else if target !in r.registered && target != "termination" then d == Err(NotRegistered)
    else
      && d.Ok? && d.value.nextNode == target && d.value.reason == ExplicitSelection && (d.value.terminates <==> target == "termination")
      && (d.value.selectedEdge.None? <==> forall e :: e in r.edges ==> !LeavesTo(s, target)(e))
      && (d.value.selectedEdge.Some? ==> exists i :: First(r, i, LeavesTo(s, target)) && d.value.selectedEdge == Some(r.edges[i].edgeId))
  }

  /** Where the run goes unasked: along the first ready edge, if its condition is known. */
  ghost predicate Followed(r: Router, s: State, d: Result<Decision, RouteError>) {
    if forall e :: e in r.edges ==> !LeavesReady(r, s)(e) then d == Ok(Decision("termination", DefaultCompletion, None, true))
    else
      exists i :: First(r, i, LeavesReady(r, s))
                  && var e := r.edges[i];
                     if e.conditionCode.Some? && e.conditionCode.value != "" && e.conditionCode.value !in r.conditions then d == Err(UnknownCondition)
                     else d == Ok(Decision(e.toNode, OfEdge(e.reasonCode), Some(e.edgeId), e.toNode == "termination" || e.isTerminal))
  }

  // ----- the foundational nodes; each returns an update to the state

  datatype NodeError = MissingTenant | MissingRun | Raised(failure: Failure)

  function Advanced(s: State): Value {
    Count(StepCount(s) + 1)
  }

  function InitializationNode(s: State): Result<State, NodeError> {
    if Strip(TenantOf(s)) == "" then Err(MissingTenant)
    else if !Get(s, RUN_ID).Str? || Strip(s[RUN_ID].text) == "" then Err(MissingRun)
    else
      Ok(map[STATUS := Lifecycle(RUNNING), CURRENT_STAGE := InStage(INITIALIZATION), CURRENT_NODE := Str(INITIAL_NODE),
             STEP_COUNT := Advanced(s),
             ROUTE_HISTORY := History(HistoryOf(s) + [RouteEvent("START", INITIAL_NODE, "GRAPH_START", StepCount(s) + 1)])])
  }

  function FinalStatus(s: State): LifecycleStatus {
    if Truthy(Get(s, REQUIRES_HUMAN_APPROVAL)) then WAITING_FOR_APPROVAL
    else if Failing(s) then FAILED
    else if Get(s, STATUS) == Lifecycle(MAX_STEPS_REACHED) then MAX_STEPS_REACHED
    else if Get(s, STATUS) == Lifecycle(BLOCKED) then BLOCKED
    else if Get(s, STATUS) == Lifecycle(NO_ACTION_REQUIRED) then NO_ACTION_REQUIRED
    else COMPLETED
  }

  /** Keeps a reason already given. */
  function TerminationNode(s: State, completedAt: Value, wording: LifecycleStatus -> string): State {
    var reason := if Truthy(Get(s, TERMINATION_REASON)) then s[TERMINATION_REASON] else Str(wording(FinalStatus(s)));
    map[STATUS := Lifecycle(FinalStatus(s)), CURRENT_STAGE := InStage(TERMINATION), CURRENT_NODE := Str(FINAL_NODE),
        COMPLETED_AT := completedAt, TERMINATION_REASON := reason, STEP_COUNT := Advanced(s)]
  }

  function ApprovalBoundaryNode(s: State): State {
    map[CURRENT_STAGE := InStage(APPROVAL), CURRENT_NODE := Str(BOUNDARY_NODE), STATUS := Lifecycle(WAITING_FOR_APPROVAL),
        REQUIRES_HUMAN_APPROVAL := Flag(true), STEP_COUNT := Advanced(s),
        TERMINATION_REASON := Str("Waiting for human authorization before executing actions.")]
  }

  /** What the entry node demands and writes. */
  lemma InitializationExactly(s: State)
    ensures var r := InitializationNode(s);
            if !(ORGANIZATION_ID in s && s[ORGANIZATION_ID].Str? && Strip(s[ORGANIZATION_ID].text) != "") then r == Err(MissingTenant)
            else if !(RUN_ID in s && s[RUN_ID].Str? && Strip(s[RUN_ID].text) != "") then r == Err(MissingRun)
            else
              && r.Ok? && r.value.Keys == {STATUS, CURRENT_STAGE, CURRENT_NODE, STEP_COUNT, ROUTE_HISTORY}
              && r.value[STATUS] == Lifecycle(RUNNING) && r.value[CURRENT_STAGE] == InStage(INITIALIZATION)
              && r.value[CURRENT_NODE] == Str("initialization") && r.value[STEP_COUNT] == Count(StepCount(s) + 1)
              && r.value[ROUTE_HISTORY] == History(HistoryOf(s) + [RouteEvent("START", "initialization", "GRAPH_START", StepCount(s) + 1)])
  {
    hide Strip, HistoryOf, StepCount;
    StripNothing();
  }

  /** What the exit node reports: that approval is awaited, or that the run failed, or the status it
      found if that tells why the run stopped, or else completion. */
  lemma TerminationExactly(s: State, completedAt: Value, wording: LifecycleStatus -> string)
    ensures var (u, found) := (TerminationNode(s, completedAt, wording), Get(s, STATUS));
            && u.Keys == {STATUS, CURRENT_STAGE, CURRENT_NODE, COMPLETED_AT, TERMINATION_REASON, STEP_COUNT}
            && u[STATUS] == (if Truthy(Get(s, REQUIRES_HUMAN_APPROVAL)) then Lifecycle(WAITING_FOR_APPROVAL)
                             else if Truthy(Get(s, Plain("errors"))) || found == Lifecycle(FAILED) then Lifecycle(FAILED)
                             else if found in {Lifecycle(MAX_STEPS_REACHED), Lifecycle(BLOCKED), Lifecycle(NO_ACTION_REQUIRED)} then found
                             else Lifecycle(COMPLETED))
            && u[CURRENT_STAGE] == InStage(TERMINATION) && u[CURRENT_NODE] == Str("termination") && u[COMPLETED_AT] == completedAt
            && u[STEP_COUNT] == Count(StepCount(s) + 1)
            && u[TERMINATION_REASON] == (if Truthy(Get(s, TERMINATION_REASON)) then Get(s, TERMINATION_REASON) else Str(wording(FinalStatus(s))))
  {
    hide StepCount;
    assert !Truthy(Nothing);
    hide Truthy;
  }

  // ----- runs

  /** A compiled graph: the router, and the handlers of the nodes other than the three above. */
  datatype Graph = Graph(router: Router, handler: (string, State) -> Result<State, Failure>, completedAt: Value, wording: LifecycleStatus -> string)
  {
    function Update(n: string, s: State): Result<State, NodeError> {
      if n == INITIAL_NODE then InitializationNode(s)
      else if n == BOUNDARY_NODE then Ok(ApprovalBoundaryNode(s))
      else match handler(n, s) case Ok(u) => Ok(u) case Err(f) => Err(Raised(f))
    }

    /** What the run loop relies on: every handler that returns raises the step count. */
    ghost predicate HandlersAdvance() {
      forall n, s :: handler(n, s).Ok? ==> StepCount(s + handler(n, s).value) > StepCount(s)
    }

    /** The builder registers the foundational nodes. */
    predicate Built() {
      INITIAL_NODE in router.registered && FINAL_NODE in router.registered && BOUNDARY_NODE in router.registered
    }
  }

  datatype Ending = Finished(state: State) | NodeRaised(error: NodeError) | RouteRaised(routeError: RouteError) | NoDestination

  datatype Run = Run(trace: seq<string>, ending: Ending)

  function Remaining(g: Graph, s: State, n: string): nat {
    if n == FINAL_NODE then 0 else if StepCount(s) < g.router.maxSteps then g.router.maxSteps - StepCount(s) + 1 else 1
  }

  lemma UpdateAdvances(g: Graph, s: State, n: string)
    requires g.HandlersAdvance() && g.Update(n, s).Ok?
    ensures StepCount(s + g.Update(n, s).value) > StepCount(s)
  {
    hide Strip, TenantOf, HistoryOf;
  }

  lemma DecisionAdvances(g: Graph, s: State, n: string, s': State)
    requires n != FINAL_NODE && StepCount(s') > StepCount(s) && Decide(g.router, s').Ok?
    ensures Remaining(g, s', Decide(g.router, s').value.nextNode) < Remaining(g, s, n)
  {
    FailsClosed(g.router, s');
    hide Decide, StepCount, Failing, AtBoundary;
  }

  /** The run from a node about to execute. The compiled graph has edges only to registered nodes. */
  ghost function RunFrom(g: Graph, s: State, n: string): Run
    requires g.HandlersAdvance()
    decreases Remaining(g, s, n)
  {
    if n == FINAL_NODE then Run([n], Finished(s + TerminationNode(s, g.completedAt, g.wording)))
    else
      var u := g.Update(n, s);
      if u.Err? then Run([n], NodeRaised(u.error))
      else
        var s' := s + u.value;
        var d := Decide(g.router, s');
        if d.Err? then Run([n], RouteRaised(d.error))
        else if d.value.nextNode !in g.router.registered then Run([n], NoDestination)
        else
          UpdateAdvances(g, s, n);
          DecisionAdvances(g, s, n, s');
          var rest := RunFrom(g, s', d.value.nextNode);
          Run([n] + rest.trace, rest.ending)
  }

  function Max(a: int, b: int): int {
    if a >= b then a else b
  }

  /** Termination comes last if at all, and is reached by every run that finishes. Before it,
      at most `max(1, maxSteps - initial count)` nodes execute. */
  lemma {:induction false} RunsHalt(g: Graph, s: State, n: string)
    requires g.HandlersAdvance()
    ensures var r := RunFrom(g, s, n);
            && r.trace != [] && r.trace[0] == n
            && (forall i :: 0 <= i < |r.trace| - 1 ==> r.trace[i] != FINAL_NODE)
            && (r.ending.Finished? <==> r.trace[|r.trace| - 1] == FINAL_NODE)
            && |r.trace| - (if r.ending.Finished? then 1 else 0)
               <= if n == FINAL_NODE then 0 else Max(1, g.router.maxSteps - StepCount(s))
    decreases Remaining(g, s, n)
  {
    hide Decide, StepCount, Failing, AtBoundary, TerminationNode, ApprovalBoundaryNode, InitializationNode;
    if n != FINAL_NODE && g.Update(n, s).Ok? {
      var s' := s + g.Update(n, s).value;
      UpdateAdvances(g, s, n);
      if Decide(g.router, s').Ok? && Decide(g.router, s').value.nextNode in g.router.registered {
        DecisionAdvances(g, s, n, s');
        RunsHalt(g, s', Decide(g.router, s').value.nextNode);
        FailsClosed(g.router, s');
      }
    }
  }

  lemma Terminates(g: Graph, s: State, u: State)
    ensures var s' := s + TerminationNode(s, g.completedAt, g.wording);
            && Get(s', STATUS) == Lifecycle(FinalStatus(s))
            && Get(s', REQUIRES_HUMAN_APPROVAL) == Get(s, REQUIRES_HUMAN_APPROVAL)
    ensures Get(s + ApprovalBoundaryNode(u), REQUIRES_HUMAN_APPROVAL) == Flag(true)
  {
    hide FinalStatus, Truthy;
  }

  /** A finished run never reports completion while human approval is required: it waits for
      approval exactly when approval is required. */
  lemma {:induction false} NeverCompletedUnapproved(g: Graph, s: State, n: string)
    requires g.HandlersAdvance() && RunFrom(g, s, n).ending.Finished?
    ensures var final := RunFrom(g, s, n).ending.state;
            && (Get(final, STATUS) == Lifecycle(WAITING_FOR_APPROVAL) <==> Truthy(Get(final, REQUIRES_HUMAN_APPROVAL)))
            && !CompletedUnapproved(final)
    decreases Remaining(g, s, n)
  {
    hide Decide, StepCount, TerminationNode, ApprovalBoundaryNode, InitializationNode, Failing, Truthy, Get, Remaining;
    if n == FINAL_NODE {
      Terminates(g, s, s);
    } else {
      var s' := s + g.Update(n, s).value;
      UpdateAdvances(g, s, n);
      DecisionAdvances(g, s, n, s');
      NeverCompletedUnapproved(g, s', Decide(g.router, s').value.nextNode);
    }
  }

  lemma BoundaryTerminates(r: Router, s: State)
    requires AtBoundary(s)
    ensures Decide(r, s).Ok? && Decide(r, s).value.nextNode == FINAL_NODE
  {
  }

  lemma BoundaryNext(g: Graph, s: State)
    requires g.HandlersAdvance() && g.Built()
    ensures var s' := s + ApprovalBoundaryNode(s);
            RunFrom(g, s, BOUNDARY_NODE)
            == Run([BOUNDARY_NODE, FINAL_NODE], Finished(s' + TerminationNode(s', g.completedAt, g.wording)))
  {
    var s' := s + ApprovalBoundaryNode(s);
    Terminates(g, s, s);
    assert AtBoundary(s');
    BoundaryTerminates(g.router, s');
    hide ApprovalBoundaryNode, TerminationNode, Decide, StepCount, Failing, Get, AtBoundary;
    assert g.Update(BOUNDARY_NODE, s) == Ok(ApprovalBoundaryNode(s));
    assert RunFrom(g, s', FINAL_NODE).trace == [FINAL_NODE];
  }

  /** The first step of a run that goes on. */
  lemma RunContinues(g: Graph, s: State, n: string)
    requires g.HandlersAdvance() && |RunFrom(g, s, n).trace| > 1
    ensures n != FINAL_NODE && g.Update(n, s).Ok?
    ensures var s' := s + g.Update(n, s).value;
            && Decide(g.router, s').Ok?
            && RunFrom(g, s, n)
               == var rest := RunFrom(g, s', Decide(g.router, s').value.nextNode);
                  Run([n] + rest.trace, rest.ending)
  {
    hide Decide, StepCount, TerminationNode, ApprovalBoundaryNode, InitializationNode, Remaining;
  }

  /** Wherever a run reaches the approval boundary, the very next node is termination, and the
      run ends waiting for approval. */
  lemma {:induction false} BoundaryHalts(g: Graph, s: State, n: string, i: nat)
    requires g.HandlersAdvance() && g.Built()
    requires i < |RunFrom(g, s, n).trace| && RunFrom(g, s, n).trace[i] == BOUNDARY_NODE
    ensures var r := RunFrom(g, s, n);
            && r.trace[i..] == [BOUNDARY_NODE, FINAL_NODE]
            && r.ending.Finished? && Get(r.ending.state, STATUS) == Lifecycle(WAITING_FOR_APPROVAL)
    decreases i
  {
    hide Decide, StepCount, TerminationNode, ApprovalBoundaryNode, InitializationNode, Failing, Get, Remaining, RunFrom, FinalStatus, Truthy;
    if i == 0 {
      RunsHalt(g, s, n);
      BoundaryEnds(g, s);
    } else {
      RunContinues(g, s, n);
      var s' := s + g.Update(n, s).value;
      BoundaryHalts(g, s', Decide(g.router, s').value.nextNode, i - 1);
    }
  }

  lemma BoundaryEnds(g: Graph, s: State)
    requires g.HandlersAdvance() && g.Built()
    ensures RunFrom(g, s, BOUNDARY_NODE).trace == [BOUNDARY_NODE, FINAL_NODE]
    ensures RunFrom(g, s, BOUNDARY_NODE).ending.Finished?
    ensures Get(RunFrom(g, s, BOUNDARY_NODE).ending.state, STATUS) == Lifecycle(WAITING_FOR_APPROVAL)
  {
    hide Decide, StepCount, TerminationNode, ApprovalBoundaryNode, Failing, Get, Remaining, RunFrom;
    var s' := s + ApprovalBoundaryNode(s);
    BoundaryNext(g, s);
    Terminates(g, s, s);
    Terminates(g, s', s);
  }

  /** How the forced terminations end, whatever the status they find. A run cut off by its budget
      says so exactly if a node had set that status, needs no approval and has not failed. One
      stopped at the boundary by its status alone, with no approval required, reports completion. */
  lemma ForcedTerminations(r: Router, s: State)
    requires Decide(r, s).Ok?
    ensures Decide(r, s).value.reason == MaxSteps ==>
              && (FinalStatus(s) == MAX_STEPS_REACHED
                  <==> !Truthy(Get(s, REQUIRES_HUMAN_APPROVAL)) && !Failing(s) && Get(s, STATUS) == Lifecycle(MAX_STEPS_REACHED))
              && (FinalStatus(s) == COMPLETED
                  <==> !Truthy(Get(s, REQUIRES_HUMAN_APPROVAL)) && !Failing(s)
                       && Get(s, STATUS) !in {Lifecycle(MAX_STEPS_REACHED), Lifecycle(BLOCKED), Lifecycle(NO_ACTION_REQUIRED)})
    ensures Decide(r, s).value.reason == ExecutionError ==>
              (FinalStatus(s) == FAILED <==> !Truthy(Get(s, REQUIRES_HUMAN_APPROVAL)))
    ensures Decide(r, s).value.reason == AwaitingApproval ==>
              if Truthy(Get(s, REQUIRES_HUMAN_APPROVAL)) then FinalStatus(s) == WAITING_FOR_APPROVAL else FinalStatus(s) == COMPLETED
  {
    hide FirstOpen, FirstTo, Outgoing, StepCount, Truthy;
  }

  lemma InitializedState(s: State)
    requires InitializationNode(s).Ok?
    ensures var s' := s + InitializationNode(s).value;
            && Get(s', STATUS) == Lifecycle(RUNNING) && StepCount(s') == StepCount(s) + 1
            && Get(s', ERRORS) == Get(s, ERRORS) && Get(s', REQUIRES_HUMAN_APPROVAL) == Get(s, REQUIRES_HUMAN_APPROVAL)
  {
    hide Strip, TenantOf, HistoryOf;
  }

  lemma BudgetDecides(r: Router, s: State)
    requires StepCount(s) >= r.maxSteps
    ensures Decide(r, s) == Ok(Final(MaxSteps))
  {
    hide Requested, Failing, AtBoundary, FirstOpen, FirstTo;
  }

  /** A run whose budget is spent by its first node goes straight to termination and, with no
      error and no approval due, reports completion. */
  lemma SpentBudgetCompletes(g: Graph, s: State)
    requires g.HandlersAdvance() && g.Built() && InitializationNode(s).Ok? && g.router.maxSteps <= StepCount(s) + 1
    requires !Truthy(Get(s, ERRORS)) && !Truthy(Get(s, REQUIRES_HUMAN_APPROVAL))
    ensures var s' := s + InitializationNode(s).value;
            && Decide(g.router, s') == Ok(Final(MaxSteps))
            && RunFrom(g, s, INITIAL_NODE)
               == Run([INITIAL_NODE, FINAL_NODE], Finished(s' + TerminationNode(s', g.completedAt, g.wording)))
            && Get(s' + TerminationNode(s', g.completedAt, g.wording), STATUS) == Lifecycle(COMPLETED)
  {
    hide InitializationNode, TerminationNode, Decide, StepCount, Truthy, Get, Failing;
    var s' := s + InitializationNode(s).value;
    InitializedState(s);
    BudgetDecides(g.router, s');
    Terminates(g, s', s);
    RunningCompletes(s');
    InitialStep(g, s);
  }

  lemma RunningCompletes(s: State)
    requires Get(s, STATUS) == Lifecycle(RUNNING) && !Truthy(Get(s, ERRORS)) && !Truthy(Get(s, REQUIRES_HUMAN_APPROVAL))
    ensures FinalStatus(s) == COMPLETED
  {
    hide Truthy;
  }

  /** A run that goes from initialization straight to termination. */
  lemma InitialStep(g: Graph, s: State)
    requires g.HandlersAdvance() && g.Built() && InitializationNode(s).Ok?
    requires Decide(g.router, s + InitializationNode(s).value).Ok?
    requires Decide(g.router, s + InitializationNode(s).value).value.nextNode == FINAL_NODE
    ensures var s' := s + InitializationNode(s).value;
            RunFrom(g, s, INITIAL_NODE) == Run([INITIAL_NODE, FINAL_NODE], Finished(s' + TerminationNode(s', g.completedAt, g.wording)))
  {
    hide InitializationNode, TerminationNode, Decide, StepCount, Remaining;
    var s' := s + InitializationNode(s).value;
    assert g.Update(INITIAL_NODE, s) == InitializationNode(s);
    assert RunFrom(g, s', FINAL_NODE).trace == [FINAL_NODE];
  }

  /** No handler reports that the budget is spent. */
  ghost predicate BudgetUnreported(g: Graph) {
    forall n, s :: g.handler(n, s).Ok? && STATUS in g.handler(n, s).value ==>
                     g.handler(n, s).value[STATUS] != Lifecycle(MAX_STEPS_REACHED)
  }

  lemma UpdateUnreported(g: Graph, s: State, n: string)
    requires BudgetUnreported(g) && g.Update(n, s).Ok?
    requires n == INITIAL_NODE || Get(s, STATUS) != Lifecycle(MAX_STEPS_REACHED)
    ensures Get(s + g.Update(n, s).value, STATUS) != Lifecycle(MAX_STEPS_REACHED)
  {
    hide Strip, TenantOf, HistoryOf, StepCount;
  }

  /** So unless a handler reports it, no run from initialization ends by saying that its budget
      was spent, however it was cut off. */
  lemma {:induction false} BudgetNeverReported(g: Graph, s: State, n: string)
    requires g.HandlersAdvance() && BudgetUnreported(g) && RunFrom(g, s, n).ending.Finished?
    requires n == INITIAL_NODE || Get(s, STATUS) != Lifecycle(MAX_STEPS_REACHED)
    ensures Get(RunFrom(g, s, n).ending.state, STATUS) != Lifecycle(MAX_STEPS_REACHED)
    decreases Remaining(g, s, n)
  {
    hide Decide, StepCount, TerminationNode, ApprovalBoundaryNode, InitializationNode, Failing, Truthy, Get, Remaining, BudgetUnreported;
    if n == FINAL_NODE {
      Terminates(g, s, s);
    } else {
      var s' := s + g.Update(n, s).value;
      UpdateUnreported(g, s, n);
      UpdateAdvances(g, s, n);
      DecisionAdvances(g, s, n, s');
      BudgetNeverReported(g, s', Decide(g.router, s').value.nextNode);
    }
  }
}
