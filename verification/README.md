# RiskWise core: a verified model

RiskWise orchestrates agents over a validated graph of nodes, keeps a digital twin of a
supply chain, ingests provider events under limits and a circuit breaker, and scores its
own predictions. This project models the parts of it that loop, keep state or do arithmetic,
and proves what they guarantee over every input and every run.

| area | files |
|---|---|
| Agent graph, its validator, the state contract, the harness and the router | `AgentModel`, `CycleCheck`, `CycleOrder`, `StageTopology`, `GraphValidator`, `EdgeRegistry`, `StateContract`, `StateWrites`, `Execution`, `Routing` |
| Digital twin: queries, identities and fingerprints, validator, builder, what becomes an edge, what nodes and edges say, repository | `TwinModel`, `TwinQuery`, `TwinFingerprints`, `TwinValidator`, `TwinBuilder`, `TwinContributions`, `TwinMeaning`, `TwinRepository` |
| Ingestion: limiters, breaker, deduplication, retry, storage, and the cycle that joins them | `SlidingWindow`, `ProviderLimiter`, `CircuitBreaker`, `Idempotency`, `Retry`, `EventStorage`, `Ingestion` |
| Metric arithmetic | `Metrics` |
| Shared notions: walks and breadth-first frontiers, histories of instants, strings and sorting, dictionaries, results | `Graphs`, `Histories`, `Text`, `Collections`, `Results` |

Conventions. Time is an explicit argument that never decreases along a run, in seconds except
in `SlidingWindow` (milliseconds), and a locked method is one atomic step. Floating point
numbers are reals. SHA-256, canonical JSON and version-5 UUIDs (section 4.3 of RFC 4122) are
function parameters, assumed free of collisions, and the UUIDs nonempty and free of colons, only
where a lemma says so; `TwinFingerprints.CollisionFreeHashesExist` shows that these assumptions can hold together. Python's `None` and raised
exceptions are `Option` and `Result`. A class method is proved against a function of the old
state, and the whole-run theorems are lemmas about that function.

`dafny verify dfyconfig.toml` checks the project.

## Where the code differs from its own documentation, or from what one would expect

The model follows the code.

- `find_path` says it does not find shortest paths by distance; by hops it does (`TwinQuery.DigitalTwinQueryService.FindPath`).
- The breaker's comment says a half-open circuit permits a single probe; it permits any number of calls until one reports (`CircuitBreaker.ManyProbes`).
- The provider limiter counts grants in a closed interval but advertises a wait that ends on its boundary, so a caller that waits exactly that long is refused again (`ProviderLimiter.AdvertisedWait`).
- The node id promises isolation between tenants, but organizations are lower-cased and stripped, and its parts are joined by colons that organizations and entity ids may contain (`TwinFingerprints.TenantsCollide`). `TwinFingerprints.TenantsApart` says exactly which tenants are isolated.
- A run cut off by its step budget reports completion unless a node set the status itself (`Routing.SpentBudgetCompletes`, `Routing.BudgetNeverReported`), and a run stopped at the boundary by its status alone reports completion too (`Routing.ForcedTerminations`).
- The score normalization says lower is better for error metrics, which holds only above one; `Metrics.NormalTurns` says exactly which of two values scores higher.
- A weight map that weighs one metric name up and another down can make the aggregation of a domain score raise, since the score's own contract bounds it to [0, 1]; `Metrics.NeverRaisesExactly` says that no other map can.
- Stage checks skip edges at START and END, so a walk through END can act with no approval in a graph the whole validator accepts (`GraphValidator.WalkThroughEndEscapes`). `GraphValidator.ApprovalUnlessBypassed` says exactly when none can.
- Any stage may clear an authoritative field, and clearing the risk assessment makes the recorded reference the active one (`StateContract.ClearingPromotesReference`, and at a state `StateContract.DecisionReplacesAssessment`). What a stage that is no owner can so put there is bounded over whole runs by `StateContract.ReplayFrames`.
- A duplicate does not renew its entry, so a batch can be skipped and then accepted within one time-to-live (`Ingestion.SkippedThenAccepted`).
- The node and edge loops of the builder disagree about tenants: a route of another organization makes no node, but its corridor between two of our facilities makes an edge (`TwinContributions.ForeignCorridor`). `TwinContributions.WhoYields` says exactly which records, kept or not, make edges.
- The cycle check promises that cycles are bounded retries, but whether it accepts a cycle of retryable and other nodes depends on how the edge ids sort (`GraphValidator.IdsDecide`, for the whole validator). `CycleOrder.AcceptedUnderAllIds` says what it accepts whatever the ids.
- The approval-gate check takes an edge's own word that it is an approval gate, so a side-effecting node outside the action stages can be entered with no approval (`GraphValidator.GateWithoutApproval`, with the exact condition in `GraphValidator.GatesDominate`).
- The engine remembers events before they are stored, so what a raising storage loses is turned away as a duplicate until its entry expires (`Ingestion.AcceptedRemembered`).
- The cycle check names a cycle by the edges on its search path, without the edge that closes it (`CycleCheck.Rejects`).

## Model

| member | source | states |
|---|---|---|
| `TwinQuery.DigitalTwinQueryService.constructor` | api/app/digital_twin/query.py:42-54 | The two indices hold exactly the snapshot's edges, under their sources and under their targets |
| `TwinQuery.DigitalTwinQueryService.GetNode` | api/app/digital_twin/query.py:60-74 | A node is returned exactly if its id is given, it is in the snapshot and it belongs to the tenant |
| `TwinQuery.DigitalTwinQueryService.FindPath` | api/app/digital_twin/query.py:205-300 | A path is found if and only if one of at most the clamped depth exists; it is joined end to end by the named edges, repeats no node, and no path is shorter |
| `TwinQuery.DigitalTwinQueryService.GetSubgraph` | api/app/digital_twin/query.py:115-203 | Caps are never exceeded; every collected node is reachable within depth by collected edges; strictly below both caps the answer is exactly the nodes within depth and the edges incident to nodes at smaller depth |
| `TwinQuery.ScanCandidates` | api/app/digital_twin/query.py:145-177 | One node's candidate edges are collected, and new nodes enqueued, until a cap is hit |
| `Graphs.ShorterWalksMiss` | api/app/digital_twin/query.py:263-289 | While the queue's head is at a level, no walk of that many hops leads to an unseen node: breadth-first search meets nodes in order of distance |
| `CycleCheck.CycleSearch.Dfs` | api/app/agents/validator.py:213-242 | The recursion stack is exactly the nodes on the path and is restored on return; finished nodes lead only to retryable nodes or to nodes finished earlier; a rejection exhibits a cycle at a node that is not retryable; visited nodes and outcome are those of the search as a function |
| `CycleCheck.WalkDescends` | api/app/agents/validator.py:213-242 | Finish numbers fall along every walk that meets no retryable node |
| `CycleCheck.CycleIsBounded` | api/app/agents/validator.py:213-242 | A cycle through a finished node passes a retryable node |
| `CycleCheck.ValidateCyclesAreBounded` | api/app/agents/validator.py:182-248 | If it accepts, every cycle passes a retryable node, but for one that stays on an END nothing else enters; if it rejects, it exhibits a bad self-loop or a cycle through a node that is not retryable; an acyclic edge list is accepted; the outcome is that of the check as a function |
| `CycleCheck.AllSourcesSettled` | api/app/agents/validator.py:244-248 | Searching from every source but END bounds all cycles |
| `CycleOrder.AcceptedUnderAllIds` | api/app/agents/validator.py:182-248 | The check accepts whatever ids the edges have, and so in whatever order they are listed, if and only if self-loops are allowed and every simple cycle has only retryable nodes, but for an END that nothing outside the cycle enters |
| `CycleOrder.IdsMatter` | api/app/agents/validator.py:204-248 | Two nodes that retry one another, only one of them retryable, are accepted if the ids list the edges from the retryable one first, and rejected under some other ids |
| `CycleOrder.ScanRejectsOnly` | api/app/agents/validator.py:213-242 | Whatever the search rejects, under any ids, is a simple cycle that is not tolerated |
| `CycleOrder.RoundRejects` | api/app/agents/validator.py:213-242 | A search that leaves each node of a cycle along the cycle first comes back to its first node, and rejects it unless it is retryable |
| `StageTopology.TransitionClimbs` | api/app/agents/edges.py:28-122 | A valid transition strictly climbs the pipeline, or is an explicit retry in place |
| `StageTopology.TransitionExactly` | api/app/agents/edges.py:28-122 | The whole table as a law of ranks: the next stage, termination, ahead to DECISION from risk assessment to optimization, three shortcuts, and retries in place; with the reason of each refusal |
| `StageTopology.WalkClimbs` | api/app/agents/edges.py:28-122 | Along any walk of an accepted graph the rank climbs by at least the number of stage changes, and only RETRY edges keep the stage |
| `StageTopology.WalksAreShort` | api/app/agents/edges.py:28-122 | Any walk away from START and END takes at most eleven edges that are not retries |
| `StageTopology.CyclesRetryInPlace` | api/app/agents/edges.py:28-122 | A cycle away from START and END stays in one stage and uses only RETRY edges |
| `StageTopology.ApprovalPrecedesAction` | api/app/agents/edges.py:28-80 | Every walk over registered nodes that starts no later than approval and ends in an acting node passes from an APPROVAL node to an ACTION node before anything acts |
| `StageTopology.ValidateStageTransitions` | api/app/agents/validator.py:67-85 | Accepts exactly if every edge between ordinary nodes follows the topology, and names an edge that does not |
| `GraphValidator.ValidateNodeEndpoints` | api/app/agents/validator.py:52-65 | Accepts exactly if every endpoint is registered or special |
| `GraphValidator.ValidateApprovalGates` | api/app/agents/validator.py:156-180 | Accepts exactly if every side-effecting node is entered, and only by an approval gate or from an APPROVAL-stage node; names the offending edge or node |
| `GraphValidator.ReachableFrom` | api/app/agents/validator.py:106-118 | The worklist, duplicates and all, ends with exactly the nodes reachable from the start |
| `GraphValidator.CanTerminate` | api/app/agents/validator.py:131-154 | True exactly if a terminal node is reachable |
| `GraphValidator.ValidateTerminalReachability` | api/app/agents/validator.py:87-154 | Accepts exactly if an edge enters END, the start is registered, no operational node is unreachable and no reachable node lacks a path to a terminal; names a real offender |
| `GraphValidator.Validate` | api/app/agents/validator.py:30-50 | Accepts exactly if endpoints are registered, side-effecting nodes gated, the cycle check finds nothing, stages in order and terminals reachable; otherwise names the first of these, in this order, that fails |
| `GraphValidator.AcceptedExactly` | api/app/agents/validator.py:30-180 | What is accepted, on nodes and edges: besides the cycle check, every end is registered or START or END, side-effecting nodes are entered, and only by an approval gate or from an APPROVAL node other than START, stages advance or retry in place, an edge enters END, the start is registered or START, every node but six names is in reach of it, and from all in reach END or a terminal node is |
| `GraphValidator.StartExactly` | api/app/agents/validator.py:36-44 | The start is where the first listed edge out of START leads, or else `initialization` if registered, or else START |
| `GraphValidator.GatesDominate` | api/app/agents/validator.py:156-180 | Where every side-effecting node is gated, every walk into one, of whatever stage, passes an APPROVAL node before it if and only if no approval gate into one leaves another stage |
| `GraphValidator.GateWithoutApproval` | api/app/agents/validator.py:30-50 | A graph that the whole validator accepts, though its side-effecting node is entered with no APPROVAL node in the graph |
| `GraphValidator.ApprovalUnlessBypassed` | api/app/agents/validator.py:67-85 | In a graph with registered endpoints and stages in order, the first acting node of every walk from a node no later than approval, START and END included, is of ACTION and follows an APPROVAL node, if and only if no edge from START or END into an acting node is reached before anything acts |
| `GraphValidator.ClosedEndsSuffice` | api/app/agents/validator.py:67-85 | It is enough for that that no edge leaves END and none enters START |
| `GraphValidator.WalkThroughEndEscapes` | api/app/agents/validator.py:30-50 | A graph that the whole validator accepts, though a walk through END acts with no APPROVAL node in the graph |
| `GraphValidator.IdsDecide` | api/app/agents/validator.py:30-50 | A graph of two nodes of one stage that the whole validator accepts, from its default start, and rejects under some other choice of edge ids |
| `EdgeRegistry.EdgeRegistry.RegisterEdge` | api/app/agents/edges.py:253-315 | Registers exactly if id and transition are new and the requested checks pass; dictionary and index both stay the list of registered edges in order |
| `EdgeRegistry.EdgeRegistry.ListEdges` | api/app/agents/edges.py:326-328 | Lists exactly the registered edges, in the order of their ids, each once |
| `EdgeRegistry.ListingUnique` | api/app/agents/edges.py:326-328 | That order is deterministic: a set of edges has one listing by id |
| `EdgeRegistry.EdgeRegistry.Clear` | api/app/agents/edges.py:338-341 | Forgets everything in both structures |
| `EdgeRegistry.RegisteredIsFresh` | api/app/agents/edges.py:266-283 | A registered edge repeats no id and no (source, target, condition) of an earlier one |
| `EdgeRegistry.OutgoingAppends` | api/app/agents/edges.py:310-332 | Appending to one source's list is what filtering the longer list by source gives, for every source |
| `EdgeRegistry.RunKeepsOrder` | api/app/agents/edges.py:253-315 | Over every run of requests edges stay distinct, and with all checks on they satisfy the validator's endpoint and stage checks |
| `EdgeRegistry.RunRegisters` | api/app/agents/edges.py:253-315 | In every run a request adds its edge at the end exactly if id and transition are new and, where asked for, endpoints and stages are in order |
| `StateContract.NewSound` | api/app/agents/contracts.py:433-565 | A new state satisfies everything an accepted update guarantees, and allows no side effect |
| `StateContract.NewExactly` | api/app/agents/contracts.py:433-565 | What each field of a new state holds; outside the identity, stage and status nothing that is true |
| `StateContract.SynchronizedTwice` | api/app/agents/contracts.py:706-718 | Filling in the aliases leaves nothing to fill in |
| `StateContract.SynchronizedElsewhere` | api/app/agents/contracts.py:706-718 | Filling in touches no field but the six aliases |
| `StateContract.AppliedSound` | api/app/agents/contracts.py:567-747 | Every accepted update yields a state with stripped identifiers, nothing required missing, tenant-scoped bindings its own, approval not bypassed and aliases filled |
| `StateContract.AppliedFrames` | api/app/agents/contracts.py:369-430 | An accepted update changes no identity field, and an authoritative field only from an owning stage, by clearing it to None, or by filling it, when empty or emptied, with what the state before held for it |
| `StateContract.ReplayFrames` | api/app/agents/contracts.py:750-888 | Over every sequence of updates the state stays sound, identity never changes, and an authoritative field no owner writes keeps its value, is cleared unless required, or takes what the first state held for it: the assessment or its reference, the id of one of them, the id of the bundle |
| `StateContract.FlagSetByApproval` | api/app/agents/contracts.py:419-419 | The side-effect flag becomes set only by an APPROVAL-stage update that says so |
| `StateContract.ClearingPromotesReference` | api/app/agents/contracts.py:711-714 | Clearing the risk assessment, from any stage, is accepted exactly if the screens pass it and the recorded reference is the tenant's own, and makes that reference the assessment |
| `StateContract.DecisionReplacesAssessment` | api/app/agents/contracts.py:711-714 | From every sound state given an assessment and another reference, a DECISION-stage write, which owns neither, replaces the one by the other |
| `StateContract.HistoryGrows` | api/app/agents/contracts.py:871-886 | An update that leaves the history alone adds one event, from the writer to the node it names, exactly if it names one other than the current node |
| `StateContract.FillOne` | api/app/agents/contracts.py:706-718 | Filling one alias changes neither the final outcome nor what is refused |
| `StateContract.AgentGraphState.ValidateStateInvariants` | api/app/agents/contracts.py:567-747 | Refuses for the stated reasons and otherwise, through re-validation after every assignment, ends with every alias filled |
| `StateContract.AgentGraphState.FillIfWanted` | api/app/agents/contracts.py:706-718 | One alias test and assignment: afterwards either everything is filled, or the alias was not wanted |
| `StateContract.ApplyStateUpdate` | api/app/agents/contracts.py:836-888 | Returns a new state, or the refusal, as specified; the current state is left alone |
| `StateWrites.AppliedExactly` | api/app/agents/contracts.py:750-888 | What becomes of any write to a sound state, by an ownership table of its own: the first rule it breaks, in order, or the state it leaves, field by field, with identity kept, aliases filled and the route event |
| `StateWrites.OwnersAccepted` | api/app/agents/contracts.py:750-888 | From every sound state a stage may write each of its own fields: if the screens and the tenant checks pass and approval is not bypassed, the write is accepted and the new state holds the values |
| `StateWrites.OwnersOnly` | api/app/agents/contracts.py:369-430 | Any other write of a new value, not None, to a field some stage owns is refused |
| `Execution.LastCallIsFirst` | api/app/agents/execution.py:220-388 | Calls before the last failed retryably; the last is the first that did not, or uses up the retries |
| `Execution.Execute` | api/app/agents/execution.py:73-388 | The handler is called only past every guard, at most max(1, max_retries) times; success means the last answer with only permitted outputs; a side-effecting handler is called only with the flag set and no approval due |
| `Execution.CalledExactly` | api/app/agents/execution.py:91-199 | The handler is called if and only if the tenant is present and nothing bound in the state is foreign to the context, the caller is an administrator or has a role, all permissions and the stage asked for, side effects are cleared, inputs, evidence and references are there, and the step count is below the budget; otherwise the first of these that fails says which error is raised |
| `Execution.RefExactly` | api/app/agents/security.py:35-107 | A reference is foreign exactly if what precedes its first colon is not the organization, and begins with `org_` or mentions a tenant or foreign |
| `Execution.RetryableExactly` | api/app/agents/errors.py:632-697 | Exactly which failures are retried, by kind, category and flag |
| `Execution.AttemptExactly` | api/app/agents/execution.py:239-268 | An answer with a field neither declared nor of the lifecycle counts as an error of the state; the default of three retries |
| `Execution.CallsExactly` | api/app/agents/execution.py:220-388 | Once called, the handler is called until it answers or fails for good, at most to the retry limit, and that answer or failure is the outcome |
| `Execution.GuardClears` | api/app/agents/execution.py:143-158 | Past the guards a side-effecting node has its flag and awaits no approval |
| `Execution.FlagNeedsGrant` | api/app/agents/execution.py:143-158 | A turn keeps the state sound and sets the flag only as an accepted update of an APPROVAL-stage node |
| `Execution.ApprovalBeforeSideEffects` | api/app/agents/execution.py:143-158 | In every run from an unset flag, a side-effecting handler is called only after an APPROVAL-stage update set the flag |
| `Execution.ApprovalBeforeSideEffectsFromStart` | api/app/agents/execution.py:143-158 | In particular in every run from a new state |
| `Routing.FirstOpenIsFirst` | api/app/agents/routing.py:125-145 | The edge followed is the first whose condition holds, or the first plain NORMAL one; an unknown condition before it raises |
| `Routing.Evaluate` | api/app/agents/routing.py:37-151 | The evaluator, with its loops, decides as specified |
| `Routing.DecidedExactly` | api/app/agents/routing.py:37-151 | The whole decision, in terms of the state and the registry: the budget, errors and due approval force termination in this order; a node asked for is granted or refused for the stated reasons; otherwise the first registered edge that leaves the current node and is ready is followed |
| `Routing.FollowedExactly` | api/app/agents/routing.py:125-145 | The edge followed unasked is the first one in the registry that leaves the current node and is open, or has an unknown condition |
| `Routing.FailsClosed` | api/app/agents/routing.py:37-151 | Every decision is to terminate, to go to an allowlisted registered node that was asked for and does not loop, or to follow an open registered edge; spent budget, errors and due approval force termination |
| `Routing.RunsHalt` | api/app/agents/graph.py:356-386 | Every run halts: termination comes last if at all, and at most max(1, max_steps - initial count) nodes execute before it |
| `Routing.NeverCompletedUnapproved` | api/app/agents/nodes.py:59-100 | A finished run waits for approval exactly when approval is required, and so is never COMPLETED then |
| `Routing.BoundaryHalts` | api/app/agents/nodes.py:103-117 | Wherever a run reaches the approval boundary, the next node is termination, and the run ends WAITING_FOR_APPROVAL |
| `Routing.ForcedTerminations` | api/app/agents/nodes.py:59-100 | How runs stopped by the budget, by errors and at the boundary end, whatever the status they find, with the exact conditions |
| `Routing.TerminationExactly` | api/app/agents/nodes.py:59-100 | Every field the exit node writes, the final status included: waiting, failed, one of the three statuses it keeps, or completed |
| `Routing.InitializationExactly` | api/app/agents/nodes.py:21-56 | What the entry node demands, which error it raises, and every field it writes |
| `Routing.SpentBudgetCompletes` | api/app/agents/routing.py:49-56 | A run whose budget the first node spends goes straight to termination for that reason and, with no error and no approval due, ends COMPLETED |
| `Routing.BudgetNeverReported` | api/app/agents/nodes.py:59-100 | Unless a handler sets that status, no run from initialization ends by saying its budget was spent |
| `TwinFingerprints.NodeIdsAgree` | api/app/digital_twin/fingerprints.py:20-32 | Two node ids agree exactly if organization, type and entity id agree once cleaned, or one organization swallows the other one's type and the other one's entity id the rest |
| `TwinFingerprints.NodeIdsApart` | api/app/digital_twin/fingerprints.py:20-32 | Within one organization, and between organizations free of colons, the cleaned parts alone decide |
| `TwinFingerprints.TenantsApart` | api/app/digital_twin/fingerprints.py:20-32 | Some nodes of two tenants share an id if and only if their cleaned names are equal or one is the other followed by a colon, an entity type, and nothing or another colon |
| `TwinFingerprints.TenantsCollide` | api/app/digital_twin/fingerprints.py:20-32 | Tenants whose names differ only in case share node ids, and so do the tenants acme:supplier and acme, whatever the UUID function |
| `TwinFingerprints.EdgeIdsAgree` | api/app/digital_twin/fingerprints.py:35-56 | Within one organization, with ends free of colons, two edge ids agree exactly if ends, type and relationship agree once cleaned |
| `TwinFingerprints.CollisionFreeHashesExist` | api/app/digital_twin/fingerprints.py:17-17 | The assumptions made about UUIDs and SHA-256 can hold together |
| `TwinFingerprints.SourceFingerprintExact` | api/app/digital_twin/fingerprints.py:120-126 | The source fingerprint depends on no order, and with a collision-free hash determines the digests |
| `TwinFingerprints.ComputeSourceFingerprint` | api/app/digital_twin/fingerprints.py:120-126 | Hashes the sorted digests, line by line |
| `TwinFingerprints.TwinFingerprintExact` | api/app/digital_twin/fingerprints.py:129-144 | The twin fingerprint depends on no order, and with a collision-free hash determines the node and the edge fingerprints |
| `TwinFingerprints.TwinFingerprintTells` | api/app/digital_twin/fingerprints.py:129-144 | With a collision-free hash, twins whose id, organization and version are free of colons share a fingerprint if and only if they agree in these three and in the bags of node and edge fingerprints |
| `TwinFingerprints.NodeFingerprintReads` | api/app/digital_twin/fingerprints.py:58-86 | Two nodes have one fingerprint under every hash if and only if they agree in every field but timestamp, provenance and the fingerprint they carry |
| `TwinFingerprints.EdgeFingerprintReads` | api/app/digital_twin/fingerprints.py:89-117 | Two edges, if and only if they agree in every field but provenance and the fingerprint they carry |
| `TwinFingerprints.ComputeTwinFingerprint` | api/app/digital_twin/fingerprints.py:129-144 | Hashes the header, then the sorted node lines, then the sorted edge lines |
| `Text.SortedUnique` | api/app/digital_twin/fingerprints.py:123-143 | A bag of strings has one sorted arrangement |
| `TwinValidator.ValidateNode` | api/app/digital_twin/validator.py:39-88 | Reports exactly the node's faults |
| `TwinValidator.ValidateEdge` | api/app/digital_twin/validator.py:91-145 | Reports exactly the edge's faults, missing endpoints included |
| `TwinValidator.NodeFaultsExactly` | api/app/digital_twin/validator.py:39-88 | What each fault of a node stands for, and that there are no others |
| `TwinValidator.EdgeFaultsExactly` | api/app/digital_twin/validator.py:91-145 | What each fault of an edge stands for, and that there are no others |
| `TwinValidator.ValidateGraph` | api/app/digital_twin/validator.py:148-195 | The errors are exactly the faults of the nodes and edges and the repeated ids |
| `TwinValidator.ValidateGraphDicts` | api/app/digital_twin/validator.py:148-195 | Over dictionaries it accepts exactly if ids are unique among the values and every node and edge is valid, whatever the iteration order |
| `TwinValidator.FingerprintGraph` | api/app/digital_twin/validator.py:221-230 | The fingerprint of a graph does not depend on the iteration order of its dictionaries |
| `TwinValidator.ValidateSnapshot` | api/app/digital_twin/validator.py:198-241 | Accepts exactly if counts, graph and twin fingerprint are right |
| `TwinBuilder.AssetsMarked` | api/app/digital_twin/builder.py:189-203 | An asset is marked exactly if an incident affects it, and with exactly the summaries of the incidents that do |
| `TwinBuilder.MapIncidents` | api/app/digital_twin/builder.py:189-203 | The nested loops fill that map |
| `TwinBuilder.NodesRefusedExactly` | api/app/digital_twin/contracts.py:33-51 | The node loops refuse exactly the inputs that keep a record whose id, label or status has a length out of bounds, whose location is off the globe or whose score is no percentage, or any record for an organization whose name is out of bounds |
| `TwinBuilder.NodesExactly` | api/app/digital_twin/builder.py:208-646 | The nodes are those of the kept records, and no others |
| `TwinContributions.IdsExactly` | api/app/digital_twin/builder.py:208-646 | An id the edge loops look up is found exactly if a kept record of those kinds has it |
| `TwinContributions.EdgesExactly` | api/app/digital_twin/builder.py:648-949 | The edges are those of the relationships whose two ends are found, and no others |
| `TwinContributions.WhoYields` | api/app/digital_twin/builder.py:648-949 | Exactly which sites, routes, shipments and stocks give rise to edges, kept or not |
| `TwinContributions.PlacedByShipment` | api/app/digital_twin/builder.py:805-812 | With collision-free ids, a shipment's node is found exactly if a kept shipment has its stripped id |
| `TwinContributions.ForeignCorridor` | api/app/digital_twin/builder.py:692-744 | A snapshot of ours is built with the corridor edge of another tenant's route, and with no route node |
| `TwinContributions.BuiltExactly` | api/app/digital_twin/builder.py:160-1013 | A snapshot is built if and only if lengths are in bounds, kept records are plausible, and capacities, stock and risks are in range on every record that makes an edge; it is then valid |
| `TwinContributions.InRangeInputsBuild` | api/app/digital_twin/builder.py:160-1013 | Inputs whose records are all in range build a valid snapshot |
| `TwinBuilder.IdsKnown` | api/app/digital_twin/builder.py:208-646 | Every id handed to the edge loops is the id of a node |
| `TwinBuilder.NodesProper` | api/app/digital_twin/builder.py:208-646 | Every node is stored under its own id, carries the tenant's organization, is in range and carries its fingerprint |
| `TwinBuilder.EdgesProper` | api/app/digital_twin/builder.py:648-949 | Every edge is stored under its own id, carries the builder's organization, joins two nodes, is in range and carries its fingerprint |
| `TwinBuilder.BuiltValid` | api/app/digital_twin/builder.py:951-1013 | Every snapshot that is built passes the validation of snapshots |
| `TwinBuilder.OrderIrrelevant` | api/app/digital_twin/builder.py:160-1013 | With unique ids and collision-free, colon-free UUIDs, rearranging any collection but the incidents leaves nodes, edges, both fingerprints and any refusal unchanged |
| `TwinBuilder.NodeEntriesConsistent` | api/app/digital_twin/builder.py:208-646 | Records with unique ids never assign two nodes to one id |
| `TwinBuilder.TieEntriesConsistent` | api/app/digital_twin/builder.py:648-949 | Records with unique ids never assign two edges to one id |
| `TwinBuilder.RelationIdsAgree` | api/app/digital_twin/builder.py:658-664 | Two edges of a tenant share an id exactly if they are the same relationship, between the same nodes, of records whose ids differ at most in trailing spaces |
| `TwinBuilder.AddNodes` | api/app/digital_twin/builder.py:208-646 | One node loop fills nodes, ids and digests, and stops exactly at a record the node contract refuses, for its values or its lengths |
| `TwinBuilder.BuildEdges` | api/app/digital_twin/builder.py:648-949 | The edge loops assign the edges in order, and stop exactly at one out of range |
| `TwinBuilder.BuildFromEntities` | api/app/digital_twin/builder.py:160-1013 | Builds as specified, refusing what the node, edge and snapshot contracts refuse, and what it returns is a valid snapshot |
| `TwinMeaning.NodesTold` | api/app/digital_twin/builder.py:204-645 | Every node of a built snapshot is, field by field, that of a record of its type that is listed: its id, label, place, score, status, and attributes with the incidents that name it, in order |
| `TwinMeaning.RecordsShown` | api/app/digital_twin/builder.py:204-645 | Where ids are unique within each collection, every record listed has such a node |
| `TwinMeaning.EdgesTold` | api/app/digital_twin/builder.py:647-949 | Every edge of a built snapshot runs from the node to the node that some record claims, with the type, relationship, status, values and reference it claims, for each of the eight relations |
| `TwinMeaning.ClaimsMet` | api/app/digital_twin/builder.py:647-949 | Where ids are unique within each collection, every such claim has its edge |
| `TwinMeaning.SourcesTold` | api/app/digital_twin/builder.py:204-989 | The source fingerprint is that of one line for each record listed |
| `TwinMeaning.PackageTold` | api/app/digital_twin/builder.py:986-1012 | A snapshot bears the builder's names, its own counts and its own twin fingerprint |
| `TwinMeaning.BuilderTold` | api/app/digital_twin/builder.py:51-56 | Which organizations have a builder, and under which stripped names it works |
| `Collections.InsertAllCommutes` | api/app/digital_twin/builder.py:208-949 | Assignments that never give one key two values make the same dictionary in every order |
| `TwinRepository.NodeRoundTrip` | api/app/digital_twin/repository.py:58-82 | A node survives its row exactly if it has no provenance, no reserved property, an entity id and a fingerprint |
| `TwinRepository.EdgeRoundTrip` | api/app/digital_twin/repository.py:89-112 | An edge survives its row exactly if it has no provenance, no reserved property, no empty reference and a fingerprint |
| `TwinRepository.PersistSnapshot` | api/app/digital_twin/repository.py:32-119 | Succeeds exactly if the snapshot is valid, fits beside the other tenants' rows and the database does not break; then replaces the tenant's rows and no others; otherwise changes nothing |
| `TwinRepository.Database.InsertNodes` | api/app/digital_twin/repository.py:84-85 | Adds exactly the rows, unless one repeats a stored key |
| `TwinRepository.LoadSnapshot` | api/app/digital_twin/repository.py:122-220 | Reads the tenant's rows back as specified; None if it has no node |
| `TwinRepository.LoadedAs` | api/app/digital_twin/repository.py:199-220 | What a loaded snapshot calls itself: the id asked for, or `twin-` and the tenant; version "1", the counts, one fingerprint twice, and exactly the tenant's rows |
| `TwinRepository.RoundTrip` | api/app/digital_twin/repository.py:32-220 | Persist then load restores the snapshot, but for the source fingerprint, if and only if it is nonempty, of version "1" and the twin id asked for, with every node and edge under its own id and able to survive its row |
| `TwinRepository.TenantsUntouched` | api/app/digital_twin/repository.py:50-54 | Persisting for one tenant changes nothing another tenant loads |
| `SlidingWindow.GrantsSpaced` | api/app/core/rate_limit.py:75-91 | On every run each grant comes at least a window after the grant `limit` places before it |
| `SlidingWindow.WindowBound` | api/app/core/rate_limit.py:32-56 | At most `limit` grants fall in any half-open window |
| `SlidingWindow.ResetSufficesOnRun` | api/app/core/rate_limit.py:49-54 | After any run whose calls asked for no more than the limit, a refusal under it finds exactly `limit` grants in the window, and a caller that waits out the advertised time is granted |
| `SlidingWindow.InMemorySlidingWindow.CheckAndRecord` | api/app/core/rate_limit.py:75-91 | Answers and records as the history demands, though it forgets expired instants only when it grants |
| `SlidingWindow.ScriptRefines` | api/app/core/rate_limit.py:32-56 | The script's verdict and sorted set are those the history demands |
| `SlidingWindow.ScriptedSlidingWindow.Eval` | api/app/core/rate_limit.py:32-56 | The same decision, count and remaining as the in-memory limiter on the same history |
| `SlidingWindow.ScriptedSlidingWindow.FoundCounts` | api/app/core/rate_limit.py:46-46 | The key's expiry never hides a grant that still counts |
| `ProviderLimiter.PurgedDecides` | api/app/integrations/rate_limiter.py:50-79 | After expired grants are popped, the deque's length decides the quota |
| `ProviderLimiter.ProviderRateLimiter.CheckLimit` | api/app/integrations/rate_limiter.py:32-79 | Allows exactly if no cooldown runs and both quotas have room, which is exactly when `acquire` would succeed; the wait is that of the rule that refused |
| `ProviderLimiter.ProviderRateLimiter.Acquire` | api/app/integrations/rate_limiter.py:81-122 | Succeeds under the same condition, records the grant in exactly the configured windows, and steps the ledger that the run lemmas are about |
| `ProviderLimiter.ProviderRateLimiter.RecordRateLimit` | api/app/integrations/rate_limiter.py:124-140 | Sets one provider's cooldown to end the hinted or default duration from now |
| `ProviderLimiter.QuotasHold` | api/app/integrations/rate_limiter.py:32-140 | Over every run, at most the per-minute quota of grants lies in any closed minute, and at most the per-hour quota in any closed hour |
| `ProviderLimiter.GrantedExactly` | api/app/integrations/rate_limiter.py:81-140 | In every run a request is granted if and only if the last cooldown has ended and fewer grants than each quota lie in the closed minute and the closed hour up to it |
| `ProviderLimiter.NoGrantInCooldown` | api/app/integrations/rate_limiter.py:81-140 | While a cooldown runs nothing is granted, whatever is attempted |
| `ProviderLimiter.AdvertisedWait` | api/app/integrations/rate_limiter.py:50-79 | On every run under one configuration, the wait advertised for a spent quota is what is left of the grant a quota's length from the end, and suffices for that quota if and only if it was the 0.1 s floor; a cooldown's wait ends it |
| `CircuitBreaker.RunConsistent` | api/app/integrations/circuit_breaker.py:118-224 | Over every run the circuit is CLOSED exactly while consecutive failures are below the threshold, successes are zero outside HALF_OPEN, and trips lie at least a cooldown apart |
| `CircuitBreaker.CountersCount` | api/app/integrations/circuit_breaker.py:118-224 | Over every run, what each counter and instant stands for; in particular a closed circuit counts the failures reported since the last success, its creation or its closing |
| `CircuitBreaker.StateAfter` | api/app/integrations/circuit_breaker.py:118-195 | The state after each operation of a run: a closed circuit trips exactly if its last failure_threshold reports are all failures, an open one half opens exactly if asked after the cooldown, a half-open one opens at a failure and closes exactly at its last probe; and when trips are counted |
| `CircuitBreaker.CallsOutsideCooldowns` | api/app/integrations/circuit_breaker.py:118-143 | A call is permitted exactly when the cooldown of the last trip is over |
| `CircuitBreaker.ManyProbes` | api/app/integrations/circuit_breaker.py:135-143 | After a trip and its cooldown, every call of any row of calls is permitted until one reports |
| `CircuitBreaker.StatusAgrees` | api/app/integrations/circuit_breaker.py:197-224 | The diagnostic call and the state check make the same transition |
| `CircuitBreaker.FailuresTrip` | api/app/integrations/circuit_breaker.py:165-195 | A row of failures trips a closed circuit at the threshold, not before |
| `CircuitBreaker.ProbesClose` | api/app/integrations/circuit_breaker.py:145-195 | A row of successes closes a half-open circuit at the threshold, not before, and one failure before that reopens it |
| `CircuitBreaker.TripsBounded` | api/app/integrations/circuit_breaker.py:165-195 | Trips number at most one plus the elapsed cooldowns |
| `CircuitBreaker.ProviderCircuitBreaker.CanExecute` | api/app/integrations/circuit_breaker.py:135-143 | Polls one provider's circuit and no other |
| `CircuitBreaker.ProviderCircuitBreaker.RecordSuccess` | api/app/integrations/circuit_breaker.py:145-163 | Reports a success to one provider's circuit and no other |
| `CircuitBreaker.ProviderCircuitBreaker.RecordFailure` | api/app/integrations/circuit_breaker.py:165-195 | Reports a failure to one provider's circuit and no other |
| `CircuitBreaker.ProviderCircuitBreaker.GetStatus` | api/app/integrations/circuit_breaker.py:197-224 | Polls one circuit as a call would, and reports its state and exactly what remains of its cooldown; other circuits stay as they are |
| `Idempotency.PurgesInvisible` | api/app/integrations/idempotency.py:129-136 | Purging anywhere in a run changes no later answer |
| `Idempotency.AcceptancesApart` | api/app/integrations/idempotency.py:79-118 | Two unique acceptances of one fingerprint lie at least the first one's time-to-live apart |
| `Idempotency.RememberedExactly` | api/app/integrations/idempotency.py:79-136 | In every run a fingerprint is remembered if and only if its last acceptance has not expired, so it is accepted again from then on |
| `Idempotency.IdempotencyEngine.CheckAndRecord` | api/app/integrations/idempotency.py:79-118 | Unique exactly if not remembered; remembers it for its time-to-live |
| `Idempotency.IdempotencyEngine.IsDuplicate` | api/app/integrations/idempotency.py:120-127 | Answers what checking at that instant would |
| `Idempotency.IdempotencyEngine.PurgeExpired` | api/app/integrations/idempotency.py:129-136 | Drops exactly the expired entries and counts them |
| `Retry.LastAttemptIsFirst` | api/app/integrations/retry.py:97-136 | Attempts before the last failed retriably; the last did not, or exhausts the retries |
| `Retry.RetryPolicy.Execute` | api/app/integrations/retry.py:97-136 | Calls up to that attempt and returns its answer, at most max_retries + 1 calls, recording one retry per failure before it with its delay |
| `Retry.BackoffGrows` | api/app/integrations/retry.py:76-95 | The delay before jitter is positive, never shrinks from one attempt to the next and respects the maximum |
| `Retry.BackoffExactly` | api/app/integrations/retry.py:76-95 | The backoff is the initial delay, multiplied by the factor with each attempt, up to the maximum |
| `Retry.RetriableExactly` | api/app/integrations/retry.py:60-74 | Exactly which failures are retried, and which of them carry a hint |
| `Retry.DelayBounded` | api/app/integrations/retry.py:76-95 | A computed delay is positive and at most a quarter above the maximum, and only jitter takes it past the maximum |
| `Retry.DelayExactly` | api/app/integrations/retry.py:76-95 | A positive hint is kept up to the maximum; otherwise the delay is the backoff or, with jitter, as far between three and five quarters of it as the draw says |
| `EventStorage.StoreOneIsLast` | api/app/integrations/boundaries.py:61-71 | One event is stored as the newest exactly if eviction leaves none of its id |
| `EventStorage.HoldsLastExactly` | api/app/integrations/boundaries.py:53-95 | The store always holds exactly the last min(n, capacity) events if and only if no id repeats among that many consecutive events |
| `EventStorage.NeverOverCapacity` | api/app/integrations/boundaries.py:61-71 | The store never exceeds its capacity |
| `EventStorage.InMemoryRawEventStorage.RecentKept` | api/app/integrations/boundaries.py:73-75 | Where ids stay apart, the events that can be looked up are exactly the last min(n, capacity) |
| `EventStorage.InMemoryRawEventStorage.StoreBatch` | api/app/integrations/boundaries.py:61-71 | Stores the batch in order; raises exactly if it is nonempty and the store is empty with a capacity below one, and then keeps nothing |
| `Ingestion.Sort` | api/app/integrations/service.py:356-424 | Every fetched event is accepted or counted as a duplicate |
| `Ingestion.AllDuplicates` | api/app/integrations/service.py:394-424 | Nothing is accepted exactly if every fingerprint is remembered when its event is checked |
| `Ingestion.SortingRemembers` | api/app/integrations/service.py:394-424 | A batch of unremembered events leaves each remembered for a full time-to-live |
| `Ingestion.IngestionService.SecondCycleSkips` | api/app/integrations/service.py:394-450 | Of two cycles that fetch events of the same fingerprints, none remembered before the first and all checked again within a time-to-live, the second leaves storage and engine as they were and reports SKIPPED_DUPLICATE, whatever became of the first |
| `Ingestion.SkippedThenAccepted` | api/app/integrations/idempotency.py:79-118 | The premise matters: a skipped batch can be accepted within a time-to-live |
| `Ingestion.AcceptedRemembered` | api/app/integrations/service.py:394-434 | An accepted event, stored or not, is counted as a duplicate by every later sorting until its entry expires |
| `Ingestion.PreparedExactly` | api/app/integrations/service.py:356-392 | An event keeps all but its payload and a missing organization, which is filled in if one is given |
| `Ingestion.IngestionService.Admit` | api/app/integrations/service.py:217-261 | Which refusal, if any, in the order of the code, and what the breaker's circuit then is; no grant and no cooldown changes |
| `Ingestion.IngestionService.Fetch` | api/app/integrations/service.py:261-325 | Fetches between once and max_retries + 1 times and returns the last answer; takes one quota unit if one is left, and sets a cooldown for every fetch refused for its rate; other providers keep theirs |
| `Ingestion.AfterCycleExactly` | api/app/integrations/service.py:261-325 | A cycle that fetches takes one unit of each configured quota when it begins to, however often it fetches; without a rate refusal the cooldown stays |
| `Ingestion.LastRefusalHolds` | api/app/integrations/service.py:261-325 | The last rate refusal decides the cooldown: its own hint, if positive, or a minute, from its own instant |
| `Ingestion.IngestionService.ToldExactly` | api/app/integrations/service.py:261-631 | What the breaker is told of a cycle that was admitted |
| `Ingestion.IngestionService.FetchAndDeliver` | api/app/integrations/service.py:261-631 | What an admitted cycle does to limiter, breaker, engine and storage |
| `Ingestion.IngestionService.Process` | api/app/integrations/service.py:352-424 | Sorts the fetched events through the engine, in order |
| `Ingestion.IngestionService.Ingest` | api/app/integrations/service.py:167-631 | Fetched is ingested plus deduplicated; the storage receives exactly the accepted events in order, unless it raises, with the exact condition; one breaker outcome per cycle, two only if the storage raises, none if a circuit is open; a delivered cycle is PARTIAL exactly if it ingested and deduplicated events, SKIPPED_DUPLICATE exactly if it only deduplicated, and SUCCESS exactly if it deduplicated none; a cycle that fetches takes exactly one quota unit, and a cooldown for each refused fetch, and one that does not, exactly when refused, touches neither limiter, engine nor storage |
| `Metrics.SpreadIsGap` | api/app/evaluation/metrics.py:110-140 | n times the sum of squares exceeds the square of the sum by exactly the spread of the magnitudes |
| `Metrics.MaeAtMostRmse` | api/app/evaluation/metrics.py:90-153 | The unrounded MAE never exceeds the unrounded RMSE, and equals it exactly if all errors have one magnitude |
| `Metrics.MetricsAgree` | api/app/evaluation/metrics.py:90-153 | Both are available together, a MAE above 4 fails both, and an RMSE up to 3 passes the MAE |
| `Metrics.MaeExactly` | api/app/evaluation/metrics.py:90-121 | The MAE times the samples is the sum of the absolute differences; available exactly from the minimum of samples on, and passing exactly up to three a sample |
| `Metrics.RmseExactly` | api/app/evaluation/metrics.py:123-153 | The squared RMSE times the samples is the sum of the squared differences; it passes exactly while those are at most sixteen a sample |
| `Metrics.ZeroRmse` | api/app/evaluation/metrics.py:123-153 | The RMSE is zero exactly if every prediction is right |
| `Metrics.NormalTurns` | api/app/evaluation/metrics.py:603-610 | Of two values, exactly when the larger scores higher and when lower: higher up to one, lower above one, and across one by the sign of a product |
| `Metrics.NormalExactly` | api/app/evaluation/metrics.py:603-610 | What a value scores: nothing up to zero, itself up to one, and above one 30 parts of 30 more than itself |
| `Metrics.ScoreIsAverage` | api/app/evaluation/metrics.py:597-613 | With nonnegative weights the score lies in any range that holds every normalized value |
| `Metrics.ScoreExactly` | api/app/evaluation/metrics.py:597-613 | The score times the total weight is the weighted sum of the normalized values; without positive weight it is zero |
| `Metrics.DomainsApart` | api/app/evaluation/metrics.py:588-588 | Domains are kept apart: a further metric joins a domain's score, in its place, exactly if it is of that domain and has a value, and otherwise changes nothing |
| `Metrics.RoundedExactly` | api/app/evaluation/metrics.py:618-618 | The score is rounded to the nearest ten-thousandth, and of two as near to the one with an even last digit |
| `Metrics.ScoreInRange` | api/app/evaluation/metrics.py:597-613 | With nonnegative weights the unrounded score is in [0, 1] |
| `Metrics.NeverRaisesExactly` | api/app/evaluation/metrics.py:580-623 | A weight map never makes the aggregation raise, whatever the metrics, if and only if no two names of a metric weigh one up and the other down, an unlisted name weighing one |
| `Metrics.NonnegativeExactly` | api/app/evaluation/metrics.py:580-623 | For a map that leaves some name out, if and only if no name of a metric has a negative weight |
| `Metrics.AggregateDomainScore` | api/app/evaluation/metrics.py:580-623 | The loop computes that average over the domain's metrics only, rounded to four places; it raises exactly if enough metrics count and the rounded value is outside [0, 1], so every returned score is inside; it fails exactly if one of them failed, and is unavailable exactly below the minimum count |

## Left out

- CycleCheck.ValidateCyclesAreBounded: for one given choice of edge ids, acceptance and rejection are characterised by two conditions and not by one; `CycleOrder.AcceptedUnderAllIds` gives the one condition for all choices.
- TwinQuery.DigitalTwinQueryService.GetSubgraph: the order of the returned lists, and which nodes a cap leaves out, are not stated, because they follow the iteration order of dictionaries.
- SlidingWindow.ScriptedSlidingWindow.Eval: takes members to be new among those stored, and one fixed window per limiter, as the service that calls it does.
- ProviderLimiter.QuotasHold: is about successful acquisitions under one configuration; the ingestion service ignores the result of `acquire`, and its retries do not acquire.
- Routing.RunsHalt: assumes that every handler raises the step count; the node bodies and the LangGraph runtime, with its own recursion limit, are not modelled.
- Ingestion.IngestionService.SecondCycleSkips: assumes the events were not remembered when first ingested; `Ingestion.SkippedThenAccepted` shows why.
- TwinBuilder.OrderIrrelevant: keeps the incidents in order, because their summaries are listed in the nodes' properties.
- TwinBuilder.AddNodes: the nine node loops, which differ only in tabulated attributes, are one loop over nine batches, and the four edge loops one over four groups; the lengths of UUIDs and SHA-256 digests are not checked, because they are always in bounds.
- Execution.Execute: handlers cannot change the state in place, time-outs are one more way to fail, and hashing, telemetry and back-off delays are left out.
- StateContract.ApplyStateUpdate: coercion by the data classes, size limits, forbidden keys, credential patterns and length caps are two abstract predicates; states given as plain dictionaries are not modelled, and a dictionary written in place of a model object stays one, unequal to it.
- TwinRepository.LoadSnapshot: rows written by others with unknown types or malformed properties, and the text form of timestamps, are not modelled.
- Float rounding, NaN, and `round` where it only feeds a fingerprint or a single metric; strings beyond ASCII when stripping and lower-casing.
- Threads and locks: each locked method is one step.
- The FastAPI application, middleware, database sessions and migrations, configuration, the frontend, language-model providers, logging, audit and metrics hooks: input, output and schema.
- `DistributedRateLimiter`'s choice between server and fallback, `reset` methods, per-provider breaker configuration, `get_neighbors`, stale-data marking and correlation metadata of events, provider-name normalization, `make_conditional_routing_fn`, placeholder nodes, warnings and metadata notes of the foundational nodes, the canonical event store and the scheduler: they would only add easy members.
- `PostgresAgentCheckpointer`, `execute_agent_graph` and checkpoint recovery: mostly SQL text and wiring.
