/** The shared graph state and the contract every update to it must meet. */
module StateContract {
  import opened Results
  import opened AgentModel
  import opened TwinModel
  import opened Text

  /** The declared fields that some rule mentions; any other declared field is `Plain`. */
  datatype Field =
    | RUN_ID | ORGANIZATION_ID | ACTOR_ID | REQUEST_ID | CORRELATION_ID | TRACE_ID | STARTED_AT | STATE_SCHEMA_VERSION
    | EVIDENCE_BUNDLE | EVIDENCE_BUNDLE_ID | EVIDENCE_REFERENCES | CITATION_REFERENCES
    | RISK_ASSESSMENT_FIELD | RISK_ASSESSMENT_ID | RISK_ASSESSMENT_REFERENCE | RISK_ALERT_REFERENCES | RISK_EXPLANATION
    | PREDICTION_ID | PREDICTION_REFERENCE | PREDICTION_RESULT | PREDICTION_EXPLANATION
    | SCENARIO_ID | SCENARIO_REFERENCE | SCENARIO_RESULT | SCENARIO_EXPLANATION
    | SIMULATION_ID | SIMULATION_REFERENCE | SIMULATION_RESULT | SIMULATION_RESULTS | SIMULATION_EXPLANATION
    | OPTIMIZATION_ID | OPTIMIZATION_REFERENCE | OPTIMIZATION_RESULT | OPTIMIZATION_PLAN | OPTIMIZATION_EXPLANATION
    | DECISION_ID | DECISION_REFERENCE | DECISION_RESULT | DECISION_EXPLANATION | RECOMMENDATION_REFERENCES
    | REQUIRES_HUMAN_APPROVAL | APPROVAL_ID | APPROVAL_REFERENCE | APPROVAL_RESULT | APPROVAL_STATUS | SIDE_EFFECT_ALLOWED
    | ACTION_ID | ACTION_REFERENCE | ACTION_RESULT | ACTION_STATUS
    | VERIFICATION_ID | VERIFICATION_REFERENCE | VERIFICATION_RESULT | VERIFICATION_STATUS
    | COMPLETED_AT | TERMINATION_REASON
    | CURRENT_STAGE | CURRENT_NODE | STATUS | STEP_COUNT | SELECTED_ROUTE | NEXT_NODE | ROUTE_REASON | ROUTE_HISTORY
    | Plain(name: string)

  datatype RouteEvent = RouteEvent(fromNode: string, toNode: string, reasonCode: string, stepNumber: int)

  /** A field's value. `Bundle` and `Risk` are model objects; a dictionary with the same contents is
      a `Dict`, which equals neither, so a stage that does not own the field may not write it back. */
  datatype Value =
    | Nothing
    | Flag(flag: bool)
    | Count(count: int)
    | Str(text: string)
    | Refs(refs: seq<string>)
    | Bundle(bundleId: string, owner: string, bundleFingerprint: string)
    | Risk(assessmentId: string, owner: string, assessmentFingerprint: string)
    | Dict(fields: map<string, Json>)
    | History(events: seq<RouteEvent>)
    | InStage(stage: Stage)
    | Lifecycle(status: LifecycleStatus)
    | Other(token: string)

  /** A state, or an update to one. A field that is missing reads as Nothing, Python's None. */
  type State = map<Field, Value>

  function Get(s: State, f: Field): Value {
    if f in s then s[f] else Nothing
  }

  /** Python's truth value. */
  predicate Truthy(v: Value) {
    match v
    case Nothing => false
    case Flag(b) => b
    case Count(n) => n != 0
    case Str(t) => t != ""
    case Refs(rs) => rs != []
    case Dict(fs) => fs != map[]
    case History(es) => es != []
    case _ => true
  }

  /** Nothing else is false. */
  lemma TruthyExactly(v: Value)
    ensures !Truthy(v) <==> v in {Nothing, Flag(false), Count(0), Str(""), Refs([]), Dict(map[]), History([])}
  {
  }

  /** The identifiers that validation strips and requires to be nonempty. */
  predicate IsId(f: Field) {
    f.RUN_ID? || f.ORGANIZATION_ID? || f.ACTOR_ID? || f.REQUEST_ID? || f.CORRELATION_ID? || f.TRACE_ID?
  }

  predicate IsIdentity(f: Field) {
    IsId(f) || f.STARTED_AT? || f.STATE_SCHEMA_VERSION?
  }

  /** The stages that may write an authoritative field; none for a field that is not. */
  function Owners(f: Field): set<Stage> {
    match f
    case EVIDENCE_BUNDLE | EVIDENCE_BUNDLE_ID | EVIDENCE_REFERENCES | CITATION_REFERENCES => {RESEARCH}
    case RISK_ASSESSMENT_FIELD | RISK_ASSESSMENT_ID | RISK_ASSESSMENT_REFERENCE | RISK_ALERT_REFERENCES | RISK_EXPLANATION =>
      {RISK_ASSESSMENT}
    case PREDICTION_ID | PREDICTION_REFERENCE | PREDICTION_RESULT | PREDICTION_EXPLANATION => {PREDICTION}
    case SCENARIO_ID | SCENARIO_REFERENCE | SCENARIO_RESULT | SCENARIO_EXPLANATION => {SCENARIO_ANALYSIS}
    case SIMULATION_ID | SIMULATION_REFERENCE | SIMULATION_RESULT | SIMULATION_RESULTS | SIMULATION_EXPLANATION => {SIMULATION}
    case OPTIMIZATION_ID | OPTIMIZATION_REFERENCE | OPTIMIZATION_RESULT | OPTIMIZATION_PLAN | OPTIMIZATION_EXPLANATION =>
      {OPTIMIZATION}
    case DECISION_ID | DECISION_REFERENCE | DECISION_RESULT | DECISION_EXPLANATION | RECOMMENDATION_REFERENCES => {DECISION}
    case REQUIRES_HUMAN_APPROVAL => {APPROVAL, INITIALIZATION, DECISION}
    case APPROVAL_ID | APPROVAL_REFERENCE | APPROVAL_RESULT | APPROVAL_STATUS | SIDE_EFFECT_ALLOWED => {APPROVAL}
    case ACTION_ID | ACTION_REFERENCE | ACTION_RESULT | ACTION_STATUS => {ACTION}
    case VERIFICATION_ID | VERIFICATION_REFERENCE | VERIFICATION_RESULT | VERIFICATION_STATUS => {VERIFICATION}
    case COMPLETED_AT | TERMINATION_REASON => {TERMINATION}
    case _ => {}
  }

  predicate Authoritative(f: Field) {
    Owners(f) != {}
  }

  /** The rule-bearing fields that can never be None. */
  predicate Required(f: Field) {
    || IsIdentity(f)
    || f.EVIDENCE_REFERENCES? || f.CITATION_REFERENCES? || f.RISK_ALERT_REFERENCES? || f.RECOMMENDATION_REFERENCES?
    || f.REQUIRES_HUMAN_APPROVAL? || f.SIDE_EFFECT_ALLOWED?
    || f.CURRENT_STAGE? || f.STATUS? || f.STEP_COUNT? || f.ROUTE_HISTORY?
  }

  datatype UpdateError = Screened | CrossTenant | OwnershipViolation | Invalid | ApprovalBoundary

  /** The checks on contents that are not modelled: of an update, for size, forbidden keys
      and credentials, and of a state, for the declared types, lengths and list caps. */
  datatype Screens = Screens(update: State -> bool, state: State -> bool)

  function ValidateUpdate(s: State, u: State, stage: Stage, screens: Screens): Option<UpdateError> {
    if !screens.update(u) then Some(Screened)
    else if ORGANIZATION_ID in u && Truthy(Get(s, ORGANIZATION_ID)) && Stripped(u[ORGANIZATION_ID]) != Get(s, ORGANIZATION_ID) then
      Some(CrossTenant)
    else if exists f :: f in u && IsIdentity(f) && f != ORGANIZATION_ID && Get(s, f) != Nothing && u[f] != s[f] then
      Some(OwnershipViolation)
    else if exists f :: f in u && Authoritative(f) && u[f] != Nothing && Get(s, f) != u[f] && stage !in Owners(f) then
      Some(OwnershipViolation)
    else None
  }

  function Stripped(v: Value): Value {
    if v.Str? then Str(Strip(v.text)) else v
  }

  function HistoryOf(s: State): seq<RouteEvent> {
    if Get(s, ROUTE_HISTORY).History? then s[ROUTE_HISTORY].events else []
  }

  /** Where the update says to go next. */
  function Target(u: State): Value {
    if Truthy(Get(u, NEXT_NODE)) then u[NEXT_NODE] else Get(u, SELECTED_ROUTE)
  }

  predicate Moves(s: State, u: State) {
    Target(u).Str? && Target(u).text != "" && Target(u) != Get(s, CURRENT_NODE)
  }

  function EventOf(u: State, node: string, merged: State): RouteEvent
    requires Target(u).Str?
  {
    RouteEvent(
      node, Target(u).text,
      if Get(u, ROUTE_REASON).Str? && u[ROUTE_REASON].text != "" then u[ROUTE_REASON].text else "EXPLICIT_TRANSITION",
      if Get(merged, STEP_COUNT).Count? then merged[STEP_COUNT].count else 0)
  }

  /** The state's data with the update laid over it, and the writer recorded. */
  function Overlaid(s: State, u: State, node: string, stage: Stage): State {
    (s + u)[CURRENT_NODE := Str(node)][CURRENT_STAGE := InStage(stage)]
  }

  function Merged(s: State, u: State, node: string, stage: Stage): State {
    var data := Overlaid(s, u, node, stage);
    if Moves(s, u) then data[ROUTE_HISTORY := History(HistoryOf(s) + [EventOf(u, node, data)])] else data
  }

  function WithIdsStripped(s: State): State {
    map f | f in s :: if IsId(f) then Stripped(s[f]) else s[f]
  }

  function TenantOf(s: State): string {
    if Get(s, ORGANIZATION_ID).Str? then s[ORGANIZATION_ID].text else ""
  }

  /** Whether a reference carries the prefix of another organization. */
  predicate ForeignRef(ref: string, org: string) {
    ':' in ref && var prefix := Before(ref, ':'); "org_" <= prefix && prefix != org
  }

  predicate JsonTruthy(j: Json) {
    match j
    case JNull => false
    case JBool(b) => b
    case JNumber(x) => x != 0.0
    case JString(t) => t != ""
    case JArray(items) => items != []
    case JObject(fields) => fields != map[]
  }

  lemma JsonTruthyExactly(j: Json)
    ensures !JsonTruthy(j) <==> j in {JNull, JBool(false), JNumber(0.0), JString(""), JArray([]), JObject(map[])}
  {
  }

  /** Whether a value bound in the state belongs to another organization. */
  predicate Foreign(v: Value, org: string) {
    match v
    case Bundle(_, owner, _) => owner != org
    case Risk(_, owner, _) => owner != org
    case Refs(refs) => exists r :: r in refs && ForeignRef(r, org)
    case Str(ref) => ForeignRef(ref, org)
    case Dict(fields) =>
      "organization_id" in fields && JsonTruthy(fields["organization_id"]) && fields["organization_id"] != JString(org)
    case _ => false
  }

  /** The fields whose contents are checked against the tenant. The risk assessment is
      checked apart, and only the active one. */
  predicate TenantScoped(f: Field) {
    || f.EVIDENCE_BUNDLE? || f.EVIDENCE_REFERENCES? || f.CITATION_REFERENCES?
    || f.RISK_ALERT_REFERENCES? || f.RECOMMENDATION_REFERENCES? || f.APPROVAL_REFERENCE?
    || f.SCENARIO_RESULT? || f.SCENARIO_REFERENCE? || f.SIMULATION_RESULT? || f.SIMULATION_REFERENCE?
    || f.OPTIMIZATION_RESULT? || f.OPTIMIZATION_REFERENCE? || f.DECISION_RESULT? || f.DECISION_REFERENCE?
    || f.APPROVAL_RESULT? || f.ACTION_RESULT? || f.ACTION_REFERENCE? || f.VERIFICATION_REFERENCE?
  }

  function ActiveRisk(s: State): Value {
    if Truthy(Get(s, RISK_ASSESSMENT_FIELD)) then s[RISK_ASSESSMENT_FIELD] else Get(s, RISK_ASSESSMENT_REFERENCE)
  }

  predicate BindingsClean(s: State, org: string) {
    forall f :: f in s && TenantScoped(f) ==> !Foreign(s[f], org)
  }

  predicate TenantClean(s: State) {
    !Foreign(ActiveRisk(s), TenantOf(s)) && BindingsClean(s, TenantOf(s))
  }

  predicate CompletedUnapproved(s: State) {
    Truthy(Get(s, REQUIRES_HUMAN_APPROVAL)) && Get(s, STATUS) == Lifecycle(COMPLETED)
  }

  function BundleIdOf(v: Value): Value {
    if v.Bundle? then Str(v.bundleId) else Nothing
  }

  function AssessmentIdOf(v: Value): Value {
    if v.Risk? then Str(v.assessmentId) else Nothing
  }

  /** What an empty alias is filled with. */
  function Source(s: State, f: Field): Value {
    match f
    case EVIDENCE_BUNDLE_ID => BundleIdOf(Get(s, EVIDENCE_BUNDLE))
    case RISK_ASSESSMENT_FIELD => ActiveRisk(s)
    case RISK_ASSESSMENT_REFERENCE => ActiveRisk(s)
    case RISK_ASSESSMENT_ID => AssessmentIdOf(ActiveRisk(s))
    case NEXT_NODE => Target(s)
    case SELECTED_ROUTE => Target(s)
    case _ => Nothing
  }

  predicate Fillable(s: State, f: Field) {
    f in s && !Truthy(s[f]) && Truthy(Source(s, f))
  }

  /** The state with every alias filled that can be. Each assignment of the code validates
      the state again, so one that makes another possible is followed by that one. */
  function Synchronized(s: State): State {
    s + map f | f in s && Fillable(s, f) :: Source(s, f)
  }

  /** What the state's own invariants reject. */
  function Refusal(s: State): Option<UpdateError> {
    if !TenantClean(s) then Some(CrossTenant)
    else if CompletedUnapproved(s) then Some(ApprovalBoundary)
    else None
  }

  predicate IdsPresent(s: State) {
    forall f :: f in s && IsId(f) ==> s[f].Str? && s[f].text != ""
  }

  predicate RequiredPresent(s: State) {
    forall f :: f in s && Required(f) ==> s[f] != Nothing
  }

  function Validated(s: State, screens: Screens): Result<State, UpdateError> {
    var s := WithIdsStripped(s);
    if !IdsPresent(s) then Err(CrossTenant)
    else if !RequiredPresent(s) || !screens.state(s) then Err(Invalid)
    else if Refusal(s).Some? then Err(Refusal(s).value)
    else Ok(Synchronized(s))
  }

  datatype Write = Write(node: Option<string>, stage: Option<Stage>, updates: State)
  {
    function NodeId(): string {
      if node.Some? && node.value != "" then node.value else "unknown_node"
    }

    function WriterStage(): Stage {
      if stage.Some? then stage.value else INITIALIZATION
    }
  }

  function Applied(s: State, w: Write, screens: Screens): Result<State, UpdateError> {
    var refused := ValidateUpdate(s, w.updates, w.WriterStage(), screens);
    if refused.Some? then Err(refused.value)
    else if Truthy(Target(w.updates)) && !Target(w.updates).Str? then Err(Invalid)
    else Validated(Merged(s, w.updates, w.NodeId(), w.WriterStage()), screens)
  }

  // ----- what every accepted state satisfies

  /** A state object, unlike an update, has every declared field. */
  ghost predicate Full(s: State) {
    forall f: Field :: !f.Plain? ==> f in s
  }

  /** Identifiers present and stripped, nothing required missing, every tenant-scoped
      binding the tenant's own, approval not bypassed, aliases filled in. */
  ghost predicate Sound(s: State) {
    && Full(s)
    && IdsPresent(s) && WithIdsStripped(s) == s
    && RequiredPresent(s)
    && Refusal(s).None?
    && Synchronized(s) == s
  }

  /** Every declared field that some rule mentions. */
  const DECLARED := {
    RUN_ID, ORGANIZATION_ID, ACTOR_ID, REQUEST_ID, CORRELATION_ID, TRACE_ID, STARTED_AT, STATE_SCHEMA_VERSION,
    EVIDENCE_BUNDLE, EVIDENCE_BUNDLE_ID, EVIDENCE_REFERENCES, CITATION_REFERENCES,
    RISK_ASSESSMENT_FIELD, RISK_ASSESSMENT_ID, RISK_ASSESSMENT_REFERENCE, RISK_ALERT_REFERENCES, RISK_EXPLANATION,
    PREDICTION_ID, PREDICTION_REFERENCE, PREDICTION_RESULT, PREDICTION_EXPLANATION,
    SCENARIO_ID, SCENARIO_REFERENCE, SCENARIO_RESULT, SCENARIO_EXPLANATION,
    SIMULATION_ID, SIMULATION_REFERENCE, SIMULATION_RESULT, SIMULATION_RESULTS, SIMULATION_EXPLANATION,
    OPTIMIZATION_ID, OPTIMIZATION_REFERENCE, OPTIMIZATION_RESULT, OPTIMIZATION_PLAN, OPTIMIZATION_EXPLANATION,
    DECISION_ID, DECISION_REFERENCE, DECISION_RESULT, DECISION_EXPLANATION, RECOMMENDATION_REFERENCES,
    REQUIRES_HUMAN_APPROVAL, APPROVAL_ID, APPROVAL_REFERENCE, APPROVAL_RESULT, APPROVAL_STATUS, SIDE_EFFECT_ALLOWED,
    ACTION_ID, ACTION_REFERENCE, ACTION_RESULT, ACTION_STATUS,
    VERIFICATION_ID, VERIFICATION_REFERENCE, VERIFICATION_RESULT, VERIFICATION_STATUS,
    COMPLETED_AT, TERMINATION_REASON,
    CURRENT_STAGE, CURRENT_NODE, STATUS, STEP_COUNT, SELECTED_ROUTE, NEXT_NODE, ROUTE_REASON, ROUTE_HISTORY}

  datatype Identity = Identity(
    runId: string, organizationId: string, actorId: string, requestId: string, correlationId: string, traceId: string)

  /** What a field starts as. */
  function Default(who: Identity, startedAt: string, f: Field): Value {
    match f
    case RUN_ID => Str(Strip(who.runId))
    case ORGANIZATION_ID => Str(Strip(who.organizationId))
    case ACTOR_ID => Str(Strip(who.actorId))
    case REQUEST_ID => Str(Strip(who.requestId))
    case CORRELATION_ID => Str(Strip(who.correlationId))
    case TRACE_ID => Str(Strip(who.traceId))
    case STARTED_AT => Other(startedAt)
    case STATE_SCHEMA_VERSION => Str("1.0.0")
    case EVIDENCE_REFERENCES | CITATION_REFERENCES | RISK_ALERT_REFERENCES | RECOMMENDATION_REFERENCES => Refs([])
    case REQUIRES_HUMAN_APPROVAL | SIDE_EFFECT_ALLOWED => Flag(false)
    case CURRENT_STAGE => InStage(INITIALIZATION)
    case STATUS => Lifecycle(INITIALIZING)
    case STEP_COUNT => Count(0)
    case ROUTE_HISTORY => History([])
    case _ => Nothing
  }

  function NewState(who: Identity, startedAt: string): State {
    map f | f in DECLARED :: Default(who, startedAt, f)
  }

  /** What a field of a new state holds: who and when, the schema, the first stage and status, and
      otherwise nothing that is true. */
  lemma NewExactly(who: Identity, startedAt: string, f: Field)
    ensures var v := Get(NewState(who, startedAt), f);
            if f.RUN_ID? then v == Str(Strip(who.runId)) else if f.ORGANIZATION_ID? then v == Str(Strip(who.organizationId))
            else if f.ACTOR_ID? then v == Str(Strip(who.actorId)) else if f.REQUEST_ID? then v == Str(Strip(who.requestId))
            else if f.CORRELATION_ID? then v == Str(Strip(who.correlationId)) else if f.TRACE_ID? then v == Str(Strip(who.traceId))
            else if f.STARTED_AT? then v == Other(startedAt) else if f.STATE_SCHEMA_VERSION? then v == Str("1.0.0")
            else if f.CURRENT_STAGE? then v == InStage(INITIALIZATION) else if f.STATUS? then v == Lifecycle(INITIALIZING)
            else v in {Nothing, Flag(false), Count(0), Refs([]), History([])}
  {
  }

  predicate Named(who: Identity) {
    && Strip(who.runId) != "" && Strip(who.organizationId) != "" && Strip(who.actorId) != ""
    && Strip(who.requestId) != "" && Strip(who.correlationId) != "" && Strip(who.traceId) != ""
  }

  lemma NewIdsStripped(who: Identity, startedAt: string)
    ensures WithIdsStripped(NewState(who, startedAt)) == NewState(who, startedAt)
  {
    hide Strip;
    forall f | f in DECLARED && IsId(f)
      ensures Stripped(Default(who, startedAt, f)) == Default(who, startedAt, f)
    {
      StripTwice(who.runId);
      StripTwice(who.organizationId);
      StripTwice(who.actorId);
      StripTwice(who.requestId);
      StripTwice(who.correlationId);
      StripTwice(who.traceId);
    }
  }

  lemma DefaultPresent(who: Identity, startedAt: string, f: Field)
    requires Named(who)
    ensures IsId(f) ==> Default(who, startedAt, f).Str? && Default(who, startedAt, f).text != ""
    ensures Required(f) ==> Default(who, startedAt, f) != Nothing
  {
    hide Strip;
  }

  lemma NewPresent(who: Identity, startedAt: string)
    requires Named(who)
    ensures IdsPresent(NewState(who, startedAt)) && RequiredPresent(NewState(who, startedAt))
  {
    hide Default, Named, IsId, Required;
    forall f | f in DECLARED
      ensures IsId(f) ==> Default(who, startedAt, f).Str? && Default(who, startedAt, f).text != ""
      ensures Required(f) ==> Default(who, startedAt, f) != Nothing
    {
      DefaultPresent(who, startedAt, f);
    }
  }

  lemma DefaultClean(who: Identity, startedAt: string, f: Field, org: string)
    requires TenantScoped(f)
    ensures !Foreign(Default(who, startedAt, f), org)
  {
    hide Strip, ForeignRef;
  }

  lemma NewAt(who: Identity, startedAt: string, f: Field)
    requires !f.Plain?
    ensures Get(NewState(who, startedAt), f) == Default(who, startedAt, f)
  {
    hide Default;
  }

  lemma DefaultsEmpty(who: Identity, startedAt: string)
    ensures Default(who, startedAt, EVIDENCE_BUNDLE) == Nothing
    ensures Default(who, startedAt, RISK_ASSESSMENT_FIELD) == Nothing && Default(who, startedAt, RISK_ASSESSMENT_REFERENCE) == Nothing
    ensures Default(who, startedAt, NEXT_NODE) == Nothing && Default(who, startedAt, SELECTED_ROUTE) == Nothing
    ensures Default(who, startedAt, REQUIRES_HUMAN_APPROVAL) == Flag(false)
  {
    hide Strip;
  }

  lemma NewUnfillable(who: Identity, startedAt: string)
    ensures forall f :: !Fillable(NewState(who, startedAt), f)
    ensures ActiveRisk(NewState(who, startedAt)) == Nothing && !CompletedUnapproved(NewState(who, startedAt))
  {
    hide NewState, Default;
    DefaultsEmpty(who, startedAt);
    NewAt(who, startedAt, EVIDENCE_BUNDLE);
    NewAt(who, startedAt, RISK_ASSESSMENT_FIELD);
    NewAt(who, startedAt, RISK_ASSESSMENT_REFERENCE);
    NewAt(who, startedAt, NEXT_NODE);
    NewAt(who, startedAt, SELECTED_ROUTE);
    NewAt(who, startedAt, REQUIRES_HUMAN_APPROVAL);
  }

  /** A run starts in a sound state, with no side effect allowed. */
  lemma NewSound(who: Identity, startedAt: string)
    requires Named(who)
    ensures Sound(NewState(who, startedAt))
    ensures Get(NewState(who, startedAt), SIDE_EFFECT_ALLOWED) == Flag(false)
  {
    hide Strip, Named, Default, WithIdsStripped, IdsPresent, RequiredPresent, Synchronized, Fillable, CompletedUnapproved, ActiveRisk, Foreign,
         TenantScoped;
    var s := NewState(who, startedAt);
    forall f: Field | !f.Plain?
      ensures f in s
    {
    }
    NewIdsStripped(who, startedAt);
    NewPresent(who, startedAt);
    NewUnfillable(who, startedAt);
    SynchronizedFixed(s);
    forall f | f in s && TenantScoped(f)
      ensures !Foreign(s[f], TenantOf(s))
    {
      DefaultClean(who, startedAt, f, TenantOf(s));
    }
    NothingIsOurs(TenantOf(s));
    FlagStartsUnset(who, startedAt);
  }

  lemma NothingIsOurs(org: string)
    ensures !Foreign(Nothing, org)
  {
  }

  lemma FlagStartsUnset(who: Identity, startedAt: string)
    ensures Get(NewState(who, startedAt), SIDE_EFFECT_ALLOWED) == Flag(false)
  {
    hide Strip;
  }

  lemma SynchronizedAt(s: State, f: Field)
    ensures Get(Synchronized(s), f) == if Fillable(s, f) then Source(s, f) else Get(s, f)
  {
  }

  lemma RiskKept(s: State)
    ensures ActiveRisk(Synchronized(s)) == ActiveRisk(s)
  {
    SynchronizedAt(s, RISK_ASSESSMENT_FIELD);
    SynchronizedAt(s, RISK_ASSESSMENT_REFERENCE);
    hide Synchronized;
  }

  lemma TargetKept(s: State)
    ensures Truthy(Target(s)) ==> Target(Synchronized(s)) == Target(s)
    ensures !Truthy(Target(s)) ==> !Truthy(Target(Synchronized(s)))
  {
    SynchronizedAt(s, NEXT_NODE);
    SynchronizedAt(s, SELECTED_ROUTE);
    hide Synchronized;
  }

  lemma SourceKept(s: State, f: Field)
    ensures Truthy(Source(s, f)) ==> Source(Synchronized(s), f) == Source(s, f)
    ensures !Truthy(Source(s, f)) ==> !Truthy(Source(Synchronized(s), f))
  {
    RiskKept(s);
    TargetKept(s);
    SynchronizedAt(s, EVIDENCE_BUNDLE);
    hide Synchronized, ActiveRisk, Target;
  }

  /** Filling in leaves nothing to fill in. */
  lemma SynchronizedTwice(s: State)
    ensures Synchronized(Synchronized(s)) == Synchronized(s)
  {
    forall f
      ensures !Fillable(Synchronized(s), f)
    {
      SynchronizedAt(s, f);
      SourceKept(s, f);
      hide Synchronized, Source, Get;
    }
    SynchronizedFixed(Synchronized(s));
  }

  lemma SynchronizedFixed(s: State)
    requires forall f :: !Fillable(s, f)
    ensures Synchronized(s) == s
  {
  }

  lemma OverlaidAt(s: State, u: State, node: string, stage: Stage, f: Field)
    ensures Get(Overlaid(s, u, node, stage), f) ==
            if f == CURRENT_NODE then Str(node)
            else if f == CURRENT_STAGE then InStage(stage)
            else if f in u then u[f] else Get(s, f)
  {
  }

  lemma MergedAt(s: State, u: State, node: string, stage: Stage, f: Field)
    ensures Get(Merged(s, u, node, stage), f) ==
            if f == ROUTE_HISTORY && Moves(s, u) then
              History(HistoryOf(s) + [EventOf(u, node, Overlaid(s, u, node, stage))])
            else Get(Overlaid(s, u, node, stage), f)
    ensures Full(s) ==> Full(Merged(s, u, node, stage))
  {
    assert Full(s) ==> Full(Overlaid(s, u, node, stage));
    hide Moves, EventOf, HistoryOf, Overlaid, Target;
  }

  lemma StrippedAt(s: State, f: Field)
    ensures Get(WithIdsStripped(s), f) == if IsId(f) then Stripped(Get(s, f)) else Get(s, f)
  {
    hide IsId;
  }

  /** The state an accepted write is made of. */
  function Draft(s: State, w: Write): State {
    WithIdsStripped(Merged(s, w.updates, w.NodeId(), w.WriterStage()))
  }

  lemma DraftAt(s: State, w: Write, f: Field)
    requires f !in {CURRENT_NODE, CURRENT_STAGE, ROUTE_HISTORY}
    ensures var v := if f in w.updates then w.updates[f] else Get(s, f);
            Get(Draft(s, w), f) == if IsId(f) then Stripped(v) else v
  {
    OverlaidAt(s, w.updates, w.NodeId(), w.WriterStage(), f);
    MergedAt(s, w.updates, w.NodeId(), w.WriterStage(), f);
    StrippedAt(Merged(s, w.updates, w.NodeId(), w.WriterStage()), f);
    hide Merged, Overlaid, WithIdsStripped, Get, Stripped;
  }

  lemma AppliedIs(s: State, w: Write, screens: Screens)
    requires Applied(s, w, screens).Ok?
    ensures Applied(s, w, screens) == Ok(Synchronized(Draft(s, w)))
    ensures ValidateUpdate(s, w.updates, w.WriterStage(), screens).None?
    ensures IdsPresent(Draft(s, w)) && RequiredPresent(Draft(s, w)) && Refusal(Draft(s, w)).None?
  {
    hide Merged, WithIdsStripped, ValidateUpdate, IdsPresent, RequiredPresent, Refusal, Synchronized;
  }

  predicate IsAlias(f: Field) {
    || f.EVIDENCE_BUNDLE_ID? || f.RISK_ASSESSMENT_FIELD? || f.RISK_ASSESSMENT_REFERENCE? || f.RISK_ASSESSMENT_ID?
    || f.NEXT_NODE? || f.SELECTED_ROUTE?
  }

  /** Filling in touches only aliases. */
  lemma SynchronizedElsewhere(s: State)
    ensures Synchronized(s).Keys == s.Keys
    ensures forall f :: !IsAlias(f) ==> Get(Synchronized(s), f) == Get(s, f)
    ensures forall f :: f in s && !IsAlias(f) ==> Synchronized(s)[f] == s[f]
  {
    assert !Truthy(Nothing);
    hide Truthy, ActiveRisk, Target;
  }

  lemma TenantKept(s: State)
    ensures TenantClean(Synchronized(s)) <==> TenantClean(s)
    ensures TenantOf(Synchronized(s)) == TenantOf(s)
  {
    hide Synchronized, Foreign, ActiveRisk, TenantScoped, IsAlias, Truthy, TenantOf, Get, BindingsClean;
    var r := Synchronized(s);
    RiskKept(s);
    SynchronizedElsewhere(s);
    ScopedNoAliases();
    SameTenant(s, r);
    forall f | TenantScoped(f)
      ensures Get(r, f) == Get(s, f) && (f in r <==> f in s)
    {
    }
    SameBindings(s, r, TenantOf(s));
  }

  lemma ScopedNoAliases()
    ensures forall f :: TenantScoped(f) ==> !IsAlias(f)
    ensures !IsAlias(ORGANIZATION_ID)
  {
  }

  lemma SameTenant(s: State, r: State)
    requires Get(r, ORGANIZATION_ID) == Get(s, ORGANIZATION_ID)
    ensures TenantOf(r) == TenantOf(s)
  {
  }

  lemma SameBindings(s: State, r: State, org: string)
    requires forall f :: TenantScoped(f) ==> Get(r, f) == Get(s, f) && (f in r <==> f in s)
    ensures BindingsClean(r, org) <==> BindingsClean(s, org)
  {
    hide Foreign, TenantScoped;
  }

  lemma RefusalKept(s: State)
    ensures Refusal(Synchronized(s)) == Refusal(s)
  {
    TenantKept(s);
    SynchronizedElsewhere(s);
    assert !IsAlias(STATUS) && !IsAlias(REQUIRES_HUMAN_APPROVAL);
    hide Synchronized, TenantClean, IsAlias, Truthy, Get;
  }

  lemma PresenceKept(s: State)
    requires IdsPresent(s) && RequiredPresent(s) && WithIdsStripped(s) == s
    ensures IdsPresent(Synchronized(s)) && RequiredPresent(Synchronized(s))
    ensures WithIdsStripped(Synchronized(s)) == Synchronized(s)
  {
    SynchronizedElsewhere(s);
    assert forall f :: Required(f) ==> !IsAlias(f);
    assert forall f :: IsId(f) ==> Required(f);
    hide Synchronized, IsAlias, Required, IsId, Truthy, Get, Stripped;
    forall f | f in s
      ensures WithIdsStripped(Synchronized(s))[f] == Synchronized(s)[f]
    {
      assert WithIdsStripped(s)[f] == s[f];
    }
  }

  lemma StrippedTwice(s: State)
    ensures WithIdsStripped(WithIdsStripped(s)) == WithIdsStripped(s)
  {
    hide IsId, Strip;
    forall f | f in s
      ensures Stripped(Stripped(s[f])) == Stripped(s[f])
    {
      if s[f].Str? {
        StripTwice(s[f].text);
      }
    }
  }

  /** Every accepted write yields a sound state, whatever the state it was made in. */
  lemma AppliedSound(s: State, w: Write, screens: Screens)
    requires Full(s) && Applied(s, w, screens).Ok?
    ensures Sound(Applied(s, w, screens).value)
  {
    AppliedIs(s, w, screens);
    var m := Merged(s, w.updates, w.NodeId(), w.WriterStage());
    MergedAt(s, w.updates, w.NodeId(), w.WriterStage(), RUN_ID);
    assert Draft(s, w).Keys == m.Keys;
    StrippedTwice(m);
    DraftSound(Draft(s, w));
    hide Applied, Full, Merged, WithIdsStripped, IdsPresent, RequiredPresent, Refusal, Sound, Synchronized;
  }

  lemma DraftSound(d: State)
    requires Full(d) && WithIdsStripped(d) == d && IdsPresent(d) && RequiredPresent(d) && Refusal(d).None?
    ensures Sound(Synchronized(d))
  {
    SynchronizedElsewhere(d);
    RefusalKept(d);
    SynchronizedTwice(d);
    PresenceKept(d);
    hide Synchronized, WithIdsStripped, IdsPresent, RequiredPresent, Refusal, IsAlias, Get;
  }

  // ----- what a write may change

  /** The write says nothing about the field, or says None. */
  predicate Silent(w: Write, f: Field) {
    f !in w.updates || w.updates[f] == Nothing
  }

  /** What the state before the write holds for an authoritative field to be filled with. */
  predicate Held(s: State, f: Field, v: Value) {
    match f
    case RISK_ASSESSMENT_FIELD | RISK_ASSESSMENT_REFERENCE => v == Get(s, RISK_ASSESSMENT_FIELD) || v == Get(s, RISK_ASSESSMENT_REFERENCE)
    case RISK_ASSESSMENT_ID =>
      v == AssessmentIdOf(Get(s, RISK_ASSESSMENT_FIELD)) || v == AssessmentIdOf(Get(s, RISK_ASSESSMENT_REFERENCE))
    case EVIDENCE_BUNDLE_ID => v == BundleIdOf(Get(s, EVIDENCE_BUNDLE))
    case _ => false
  }

  /** The field was empty, or the write emptied it, and it took what the state before held for it. */
  predicate Refilled(s: State, w: Write, s': State, f: Field) {
    (!Truthy(Get(s, f)) || (f in w.updates && w.updates[f] == Nothing)) && Truthy(Get(s', f)) && Held(s, f, Get(s', f))
  }

  predicate Cleared(w: Write, s': State, f: Field) {
    f in w.updates && w.updates[f] == Nothing && Get(s', f) == Nothing && !Required(f)
  }

  lemma SoundIdentity(s: State, f: Field)
    requires Sound(s) && IsIdentity(f)
    ensures f in s && s[f] != Nothing && (f == ORGANIZATION_ID ==> Truthy(s[f]))
  {
    hide Synchronized, Refusal, WithIdsStripped;
    assert !f.Plain? && Required(f);
    assert f == ORGANIZATION_ID ==> IsId(f);
  }

  lemma ValidatedKeeps(s: State, w: Write, screens: Screens, f: Field)
    requires Sound(s) && ValidateUpdate(s, w.updates, w.WriterStage(), screens).None?
    ensures IsIdentity(f) ==> f in s
    ensures IsIdentity(f) && f in w.updates ==> (if f == ORGANIZATION_ID then Stripped(w.updates[f]) else w.updates[f]) == s[f]
    ensures Authoritative(f) && w.WriterStage() !in Owners(f) ==> Silent(w, f) || w.updates[f] == Get(s, f)
  {
    hide Owners, IsIdentity, Sound, Stripped, Truthy;
    if IsIdentity(f) {
      SoundIdentity(s, f);
    }
  }

  lemma IdentityStripped(s: State, f: Field)
    requires Sound(s) && f in s && IsId(f)
    ensures Stripped(s[f]) == s[f]
  {
    hide Synchronized, IdsPresent, RequiredPresent, Refusal, Stripped;
    assert WithIdsStripped(s)[f] == s[f];
  }

  lemma FieldsApart(f: Field)
    ensures IsIdentity(f) || Authoritative(f) ==> f !in {CURRENT_NODE, CURRENT_STAGE, ROUTE_HISTORY}
    ensures IsIdentity(f) ==> Required(f) && !IsAlias(f) && !Authoritative(f)
    ensures Authoritative(f) ==> !IsId(f)
  {
  }

  lemma FillableIsEmptyAlias(s: State, f: Field)
    ensures Fillable(s, f) ==> IsAlias(f) && !Truthy(Get(s, f)) && Truthy(Source(s, f))
  {
    assert !Truthy(Nothing);
    hide Truthy, ActiveRisk, Target;
  }

  lemma IdentityFrame(s: State, w: Write, screens: Screens, f: Field)
    requires Sound(s) && Applied(s, w, screens).Ok? && IsIdentity(f)
    ensures Get(Applied(s, w, screens).value, f) == Get(s, f)
  {
    FieldsApart(f);
    assert f in s;
    if IsId(f) {
      IdentityStripped(s, f);
    }
    AppliedIs(s, w, screens);
    ValidatedKeeps(s, w, screens, f);
    DraftAt(s, w, f);
    SynchronizedElsewhere(Draft(s, w));
    assert f == ORGANIZATION_ID ==> IsId(f);
    hide Applied, Draft, Sound, Synchronized, Stripped, IsId, IsIdentity, IsAlias, Owners, ValidateUpdate,
         Truthy, Refusal, IdsPresent, RequiredPresent;
  }

  lemma RequiredNeverCleared(s: State, f: Field)
    requires Sound(s) && Required(f)
    ensures Get(s, f) != Nothing
  {
    assert f in s;
    hide Required, Synchronized, Refusal, IdsPresent, WithIdsStripped;
  }

  /** Without an owning stage, a field of the draft is what it was or nothing. */
  lemma DraftKeeps(s: State, w: Write, screens: Screens, f: Field)
    requires Sound(s) && Applied(s, w, screens).Ok? && Authoritative(f) && w.WriterStage() !in Owners(f)
    ensures Get(Draft(s, w), f) == Get(s, f) || (f in w.updates && w.updates[f] == Nothing && Get(Draft(s, w), f) == Nothing)
  {
    FieldsApart(f);
    AppliedIs(s, w, screens);
    ValidatedKeeps(s, w, screens, f);
    DraftAt(s, w, f);
    hide Applied, Draft, Sound, Stripped, IsId, IsIdentity, Owners, ValidateUpdate, IsAlias, Required,
         Truthy, Refusal, IdsPresent, RequiredPresent, Get, Synchronized;
  }

  lemma SameOwners(f: Field)
    ensures Owners(RISK_ASSESSMENT_FIELD) == Owners(RISK_ASSESSMENT_REFERENCE) == Owners(RISK_ASSESSMENT_ID) == {RISK_ASSESSMENT}
    ensures Owners(EVIDENCE_BUNDLE) == Owners(EVIDENCE_BUNDLE_ID) == {RESEARCH}
    ensures !Required(RISK_ASSESSMENT_FIELD) && !Required(RISK_ASSESSMENT_REFERENCE) && !Required(EVIDENCE_BUNDLE)
    ensures Authoritative(f) && IsAlias(f) ==>
              f in {RISK_ASSESSMENT_FIELD, RISK_ASSESSMENT_REFERENCE, RISK_ASSESSMENT_ID, EVIDENCE_BUNDLE_ID}
  {
  }

  /** What an authoritative alias is filled with, if none of its owners writes, was there before. */
  lemma SourceHeld(s: State, d: State, f: Field)
    requires Authoritative(f) && IsAlias(f) && Truthy(Source(d, f))
    requires Get(d, RISK_ASSESSMENT_FIELD) in {Get(s, RISK_ASSESSMENT_FIELD), Nothing}
             || f.EVIDENCE_BUNDLE_ID?
    requires Get(d, RISK_ASSESSMENT_REFERENCE) in {Get(s, RISK_ASSESSMENT_REFERENCE), Nothing} || f.EVIDENCE_BUNDLE_ID?
    requires Get(d, EVIDENCE_BUNDLE) in {Get(s, EVIDENCE_BUNDLE), Nothing} || !f.EVIDENCE_BUNDLE_ID?
    ensures Held(s, f, Source(d, f))
  {
    SameOwners(f);
    hide Owners, IsAlias, Get;
    RiskIsThere(d);
  }

  lemma RiskIsThere(d: State)
    ensures ActiveRisk(d) == if Truthy(Get(d, RISK_ASSESSMENT_FIELD)) then Get(d, RISK_ASSESSMENT_FIELD) else Get(d, RISK_ASSESSMENT_REFERENCE)
  {
    assert !Truthy(Nothing);
  }

  lemma DraftHolds(s: State, w: Write, screens: Screens, f: Field)
    requires Sound(s) && Applied(s, w, screens).Ok? && Authoritative(f) && IsAlias(f) && w.WriterStage() !in Owners(f)
    requires Truthy(Source(Draft(s, w), f))
    ensures Held(s, f, Source(Draft(s, w), f))
  {
    SameOwners(f);
    hide Applied, Draft, Sound, Source, Held, Owners, IsAlias, Truthy, Get;
    if f.EVIDENCE_BUNDLE_ID? {
      DraftKeeps(s, w, screens, EVIDENCE_BUNDLE);
    } else {
      DraftKeeps(s, w, screens, RISK_ASSESSMENT_FIELD);
      DraftKeeps(s, w, screens, RISK_ASSESSMENT_REFERENCE);
    }
    SourceHeld(s, Draft(s, w), f);
  }

  lemma AuthorityFrame(s: State, w: Write, screens: Screens, f: Field)
    requires Sound(s) && Applied(s, w, screens).Ok? && Authoritative(f) && w.WriterStage() !in Owners(f)
    ensures var s' := Applied(s, w, screens).value;
            Get(s', f) == Get(s, f) || Cleared(w, s', f) || Refilled(s, w, s', f)
  {
    AppliedIs(s, w, screens);
    AppliedSound(s, w, screens);
    var d := Draft(s, w);
    DraftKeeps(s, w, screens, f);
    SynchronizedAt(d, f);
    FillableIsEmptyAlias(d, f);
    if Required(f) {
      RequiredNeverCleared(Synchronized(d), f);
    }
    hide Applied, Draft, Sound, Synchronized, IsAlias, Owners, Truthy, Required, Source, Fillable, Get, Held;
    if Fillable(d, f) {
      DraftHolds(s, w, screens, f);
    }
  }

  /** An accepted write changes no identity field, and an authoritative field only from an
      owning stage, by clearing it, or by filling it, when empty, with what the state held for it. */
  lemma AppliedFrames(s: State, w: Write, screens: Screens, f: Field)
    requires Sound(s) && Applied(s, w, screens).Ok?
    ensures var s' := Applied(s, w, screens).value;
            && (IsIdentity(f) ==> Get(s', f) == Get(s, f))
            && (Authoritative(f) && Get(s', f) != Get(s, f) ==>
                  w.WriterStage() in Owners(f) || Cleared(w, s', f) || Refilled(s, w, s', f))
  {
    if IsIdentity(f) {
      IdentityFrame(s, w, screens, f);
      FieldsApart(f);
    } else if Authoritative(f) && w.WriterStage() !in Owners(f) {
      AuthorityFrame(s, w, screens, f);
    }
    hide Applied, Sound, IsIdentity, Owners, Cleared, Refilled, Get;
  }

  lemma FlagRules()
    ensures Owners(SIDE_EFFECT_ALLOWED) == {APPROVAL} && Authoritative(SIDE_EFFECT_ALLOWED) && !IsIdentity(SIDE_EFFECT_ALLOWED)
    ensures !IsAlias(SIDE_EFFECT_ALLOWED) && Required(SIDE_EFFECT_ALLOWED) && !IsId(SIDE_EFFECT_ALLOWED)
  {
  }

  /** Only an APPROVAL-stage write that says so sets the side-effect flag. */
  lemma FlagSetByApproval(s: State, w: Write, screens: Screens)
    requires Sound(s) && Applied(s, w, screens).Ok? && !Truthy(Get(s, SIDE_EFFECT_ALLOWED))
    requires Truthy(Get(Applied(s, w, screens).value, SIDE_EFFECT_ALLOWED))
    ensures w.WriterStage() == APPROVAL && Truthy(Get(w.updates, SIDE_EFFECT_ALLOWED))
  {
    hide Sound, Applied, Draft, Synchronized, IsAlias, IsId, Required, Owners, Authoritative, IsIdentity, Truthy, Source, TenantOf;
    FlagRules();
    AppliedIs(s, w, screens);
    AppliedFrames(s, w, screens, SIDE_EFFECT_ALLOWED);
    DraftAt(s, w, SIDE_EFFECT_ALLOWED);
    SynchronizedElsewhere(Draft(s, w));
  }

  /** Whatever a sequence of writes attempts, each accepted or refused: the state is sound. */
  function Replay(s: State, ws: seq<Write>, screens: Screens): State {
    if ws == [] then s else After(Replay(s, ws[..|ws| - 1], screens), ws[|ws| - 1], screens)
  }

  /** A refused write leaves the state as it was. */
  function After(s: State, w: Write, screens: Screens): State {
    if Applied(s, w, screens).Ok? then Applied(s, w, screens).value else s
  }

  predicate NoOwner(ws: seq<Write>, f: Field) {
    forall i :: 0 <= i < |ws| ==> ws[i].WriterStage() !in Owners(f)
  }

  /** What the field can be if only others wrote: what it was, nothing unless it is required, or
      what the earlier state held for it. */
  predicate Retained(s: State, r: State, f: Field) {
    Get(r, f) == Get(s, f) || (Get(r, f) == Nothing && !Required(f)) || Held(s, f, Get(r, f))
  }

  lemma AfterFrames(s: State, w: Write, screens: Screens, f: Field)
    requires Sound(s)
    ensures var r := After(s, w, screens);
            && Sound(r)
            && (IsIdentity(f) ==> Get(r, f) == Get(s, f))
            && (Authoritative(f) && w.WriterStage() !in Owners(f) ==> Retained(s, r, f))
  {
    if Applied(s, w, screens).Ok? {
      AppliedSound(s, w, screens);
      AppliedFrames(s, w, screens, f);
    }
    hide Applied, Sound, IsIdentity, Owners, Get, Held, Required, Truthy;
  }

  lemma RetainedTwice(s: State, m: State, r: State, f: Field)
    requires Authoritative(f) && Retained(s, m, f) && Retained(m, r, f)
    requires f.EVIDENCE_BUNDLE_ID? ==> Retained(s, m, EVIDENCE_BUNDLE)
    requires IsAlias(f) && !f.EVIDENCE_BUNDLE_ID? ==> Retained(s, m, RISK_ASSESSMENT_FIELD) && Retained(s, m, RISK_ASSESSMENT_REFERENCE)
    ensures Retained(s, r, f)
  {
    SameOwners(f);
    if Held(m, f, Get(r, f)) {
      HeldIsAlias(m, f, Get(r, f));
    }
    hide Get, Required, Owners, Held, IsAlias;
  }

  lemma HeldIsAlias(s: State, f: Field, v: Value)
    requires Held(s, f, v)
    ensures IsAlias(f)
  {
  }

  /** Over any sequence of writes the state stays sound, no identity field ever changes, and
      an authoritative field none of whose owners writes is at most cleared (and not even that
      if it is required), or filled with what the first state held for it: the assessment and
      its reference with one another, their id with one of theirs, the bundle's id with its own. */
  lemma {:induction false} ReplayFrames(s: State, ws: seq<Write>, screens: Screens, f: Field)
    requires Sound(s)
    ensures var r := Replay(s, ws, screens);
            && Sound(r)
            && (IsIdentity(f) ==> Get(r, f) == Get(s, f))
            && (Authoritative(f) && NoOwner(ws, f) ==> Retained(s, r, f))
    decreases |ws|, IsAlias(f)
  {
    SameOwners(f);
    hide Applied, After, Sound, IsIdentity, Owners, Get, IsAlias, Required, Held, Retained;
    if ws == [] {
      RetainedAtOnce(s, f);
    } else {
      var front, w := ws[..|ws| - 1], ws[|ws| - 1];
      var m := Replay(s, front, screens);
      ReplayFrames(s, front, screens, f);
      AfterFrames(m, w, screens, f);
      if Authoritative(f) && NoOwner(ws, f) {
        ReplayFrames(s, front, screens, EVIDENCE_BUNDLE);
        ReplayFrames(s, front, screens, RISK_ASSESSMENT_FIELD);
        ReplayFrames(s, front, screens, RISK_ASSESSMENT_REFERENCE);
        RetainedTwice(s, m, Replay(s, ws, screens), f);
      }
    }
  }

  lemma RetainedAtOnce(s: State, f: Field)
    ensures Retained(s, s, f)
  {
  }

  predicate ClearsAssessment(w: Write) {
    w.updates == map[RISK_ASSESSMENT_FIELD := Nothing]
  }

  lemma ClearingDraft(s: State, w: Write, f: Field)
    requires Sound(s) && ClearsAssessment(w)
    ensures Get(Draft(s, w), f) ==
            if f == CURRENT_NODE then Str(w.NodeId())
            else if f == CURRENT_STAGE then InStage(w.WriterStage())
            else if f == RISK_ASSESSMENT_FIELD then Nothing
            else Get(s, f)
    ensures Draft(s, w).Keys == s.Keys
  {
    var n, g := w.NodeId(), w.WriterStage();
    ClearingMerged(s, w);
    OverlaidAt(s, w.updates, n, g, f);
    StrippedAt(Overlaid(s, w.updates, n, g), f);
    WriterNotIds();
    SoundFull(s);
    if f in s && IsId(f) {
      IdentityStripped(s, f);
    }
    hide IsId, Sound, Full, Overlaid, Merged, WithIdsStripped, Stripped, Refusal, IdsPresent, RequiredPresent, ClearsAssessment;
  }

  lemma ClearingMerged(s: State, w: Write)
    requires Sound(s) && ClearsAssessment(w)
    ensures Merged(s, w.updates, w.NodeId(), w.WriterStage()) == Overlaid(s, w.updates, w.NodeId(), w.WriterStage())
    ensures WithIdsStripped(Overlaid(s, w.updates, w.NodeId(), w.WriterStage())).Keys == s.Keys
  {
    SoundFull(s);
    hide Sound, Full, IsId, Stripped, EventOf, Refusal, IdsPresent, RequiredPresent;
    assert Get(w.updates, NEXT_NODE) == Nothing && Get(w.updates, SELECTED_ROUTE) == Nothing;
    assert !Moves(s, w.updates);
    assert Overlaid(s, w.updates, w.NodeId(), w.WriterStage()).Keys == s.Keys;
  }

  lemma SoundFull(s: State)
    requires Sound(s)
    ensures Full(s) && IdsPresent(s) && RequiredPresent(s) && Refusal(s).None?
    ensures RISK_ASSESSMENT_FIELD in s && CURRENT_NODE in s && CURRENT_STAGE in s && RISK_ASSESSMENT_REFERENCE in s
  {
    hide IdsPresent, RequiredPresent, Refusal, Synchronized, WithIdsStripped;
  }

  lemma WriterNotIds()
    ensures !IsId(RISK_ASSESSMENT_FIELD) && !IsId(CURRENT_NODE) && !IsId(CURRENT_STAGE)
    ensures !Required(RISK_ASSESSMENT_FIELD) && !IsIdentity(RISK_ASSESSMENT_FIELD)
    ensures !TenantScoped(RISK_ASSESSMENT_FIELD) && !TenantScoped(CURRENT_NODE) && !TenantScoped(CURRENT_STAGE)
  {
  }

  lemma ClearingPresent(s: State, w: Write)
    requires Sound(s) && ClearsAssessment(w)
    ensures IdsPresent(Draft(s, w)) && RequiredPresent(Draft(s, w))
  {
    SoundFull(s);
    WriterNotIds();
    var d := Draft(s, w);
    hide Sound, Draft, IsId, Required, IsIdentity, TenantScoped, ClearsAssessment, Full, Refusal;
    forall f | f in d
      ensures Get(d, f) == d[f] && f in s
      ensures IsId(f) ==> d[f] == s[f]
      ensures Required(f) && s[f] != Nothing ==> d[f] != Nothing
    {
      ClearingDraft(s, w, f);
    }
  }

  lemma ClearingRefusal(s: State, w: Write)
    requires Sound(s) && ClearsAssessment(w)
    ensures Refusal(Draft(s, w)).None? <==> !Foreign(Get(s, RISK_ASSESSMENT_REFERENCE), TenantOf(s))
  {
    hide Sound, Draft, TenantScoped, Foreign, Truthy, ClearsAssessment, Full, TenantOf, ActiveRisk, BindingsClean, IdsPresent, RequiredPresent,
         Get;
    var d := Draft(s, w);
    SoundFull(s);
    WriterNotIds();
    ClearingDraft(s, w, RISK_ASSESSMENT_FIELD);
    ClearingDraft(s, w, RISK_ASSESSMENT_REFERENCE);
    ClearingDraft(s, w, ORGANIZATION_ID);
    ClearingDraft(s, w, REQUIRES_HUMAN_APPROVAL);
    ClearingDraft(s, w, STATUS);
    RiskIsThere(d);
    NothingFalse();
    SameTenant(s, d);
    forall f | TenantScoped(f)
      ensures Get(d, f) == Get(s, f) && (f in d <==> f in s)
    {
      ClearingDraft(s, w, f);
    }
    SameBindings(s, d, TenantOf(s));
  }

  lemma NothingFalse()
    ensures !Truthy(Nothing)
  {
  }

  lemma ClearingValidated(s: State, w: Write, screens: Screens)
    requires ClearsAssessment(w)
    ensures ValidateUpdate(s, w.updates, w.WriterStage(), screens).None? <==> screens.update(w.updates)
    ensures !Truthy(Target(w.updates))
  {
    WriterNotIds();
    hide IsIdentity, IsId, Owners, Stripped;
  }

  /** The alias rule lets any stage replace the active assessment by the recorded reference, by
      clearing the assessment: such a write is accepted whenever the screens pass it and the
      reference is the tenant's own, and then has that effect. */
  lemma ClearingPromotesReference(s: State, w: Write, screens: Screens)
    requires Sound(s) && Truthy(Get(s, RISK_ASSESSMENT_REFERENCE)) && ClearsAssessment(w)
    ensures Applied(s, w, screens).Ok?
            <==> screens.update(w.updates) && screens.state(Draft(s, w)) && !Foreign(Get(s, RISK_ASSESSMENT_REFERENCE), TenantOf(s))
    ensures Applied(s, w, screens).Ok? ==> Get(Applied(s, w, screens).value, RISK_ASSESSMENT_FIELD) == Get(s, RISK_ASSESSMENT_REFERENCE)
  {
    ClearingValidated(s, w, screens);
    ClearingPresent(s, w);
    ClearingRefusal(s, w);
    hide Sound, Synchronized, ValidateUpdate, Merged, WithIdsStripped, IdsPresent, RequiredPresent, Refusal, Foreign, Truthy, Target,
         ClearsAssessment, Full, ActiveRisk, Source, Fillable;
    if Applied(s, w, screens).Ok? {
      ClearingFills(s, w);
    }
  }

  lemma ClearingFills(s: State, w: Write)
    requires Sound(s) && Truthy(Get(s, RISK_ASSESSMENT_REFERENCE)) && ClearsAssessment(w)
    ensures Get(Synchronized(Draft(s, w)), RISK_ASSESSMENT_FIELD) == Get(s, RISK_ASSESSMENT_REFERENCE)
  {
    hide Sound, Draft, Synchronized, ClearsAssessment, Full, Refusal, IdsPresent, RequiredPresent, Truthy, Fillable, Source, ActiveRisk;
    var d := Draft(s, w);
    SoundFull(s);
    ClearingDraft(s, w, RISK_ASSESSMENT_FIELD);
    ClearingDraft(s, w, RISK_ASSESSMENT_REFERENCE);
    SynchronizedAt(d, RISK_ASSESSMENT_FIELD);
    PromotedSource(d);
  }

  lemma PromotedSource(d: State)
    requires RISK_ASSESSMENT_FIELD in d && Get(d, RISK_ASSESSMENT_FIELD) == Nothing && Truthy(Get(d, RISK_ASSESSMENT_REFERENCE))
    ensures Fillable(d, RISK_ASSESSMENT_FIELD) && Source(d, RISK_ASSESSMENT_FIELD) == Get(d, RISK_ASSESSMENT_REFERENCE)
  {
    RiskIsThere(d);
  }

  /** The state with an assessment and a different reference, both the tenant's own. */
  function Assessed(s: State): State {
    s[RISK_ASSESSMENT_FIELD := Risk("a", TenantOf(s), "fa")][RISK_ASSESSMENT_REFERENCE := Risk("r", TenantOf(s), "fr")]
      [RISK_ASSESSMENT_ID := Str("a")]
  }

  predicate RiskField(f: Field) {
    f.RISK_ASSESSMENT_FIELD? || f.RISK_ASSESSMENT_REFERENCE? || f.RISK_ASSESSMENT_ID?
  }

  lemma AssessedAt(s: State, f: Field)
    ensures Get(Assessed(s), f) ==
            if f.RISK_ASSESSMENT_FIELD? then Risk("a", TenantOf(s), "fa")
            else if f.RISK_ASSESSMENT_REFERENCE? then Risk("r", TenantOf(s), "fr")
            else if f.RISK_ASSESSMENT_ID? then Str("a")
            else Get(s, f)
    ensures RiskField(f) ==> Truthy(Get(Assessed(s), f))
    ensures !RiskField(f) ==> (f in Assessed(s) <==> f in s)
    ensures Full(s) ==> Full(Assessed(s))
  {
    hide TenantOf;
  }

  lemma RiskFieldRules(f: Field)
    ensures RiskField(f) ==> !IsId(f) && !Required(f) && !TenantScoped(f)
    ensures IsId(ORGANIZATION_ID) && !RiskField(ORGANIZATION_ID) && !RiskField(STATUS) && !RiskField(REQUIRES_HUMAN_APPROVAL)
  {
  }

  lemma AssessedUnfillable(s: State, f: Field)
    requires Sound(s)
    ensures !Fillable(Assessed(s), f)
  {
    var r := Assessed(s);
    AssessedAt(s, f);
    AssessedAt(s, EVIDENCE_BUNDLE);
    AssessedAt(s, NEXT_NODE);
    AssessedAt(s, SELECTED_ROUTE);
    SoundUnfillable(s, f);
    hide Sound, Assessed, TenantOf, Truthy, Full;
  }

  lemma SoundUnfillable(s: State, f: Field)
    requires Sound(s)
    ensures !Fillable(s, f)
  {
    hide IdsPresent, RequiredPresent, Refusal, WithIdsStripped, Full;
  }

  lemma AssessedRefusal(s: State)
    requires Refusal(s).None?
    ensures Refusal(Assessed(s)).None? && TenantOf(Assessed(s)) == TenantOf(s)
  {
    hide Assessed, TenantOf, Foreign, ActiveRisk, TenantScoped, Truthy, Get, BindingsClean;
    var r := Assessed(s);
    AssessedAt(s, RISK_ASSESSMENT_FIELD);
    AssessedAt(s, ORGANIZATION_ID);
    AssessedAt(s, STATUS);
    AssessedAt(s, REQUIRES_HUMAN_APPROVAL);
    RiskIsThere(r);
    RiskFieldRules(RISK_ASSESSMENT_FIELD);
    SameTenant(s, r);
    OwnRisk(TenantOf(s));
    forall f | TenantScoped(f)
      ensures Get(r, f) == Get(s, f) && (f in r <==> f in s)
    {
      RiskFieldRules(f);
      AssessedAt(s, f);
    }
    SameBindings(s, r, TenantOf(s));
  }

  lemma OwnRisk(org: string)
    ensures !Foreign(Risk("a", org, "fa"), org) && !Foreign(Risk("r", org, "fr"), org)
  {
  }

  lemma AssessedSound(s: State)
    requires Sound(s)
    ensures Sound(Assessed(s))
  {
    hide Sound, Assessed, TenantOf, Fillable, TenantScoped, RiskField, IsId, Required, Full, Refusal, WithIdsStripped, Synchronized,
         IdsPresent, RequiredPresent, Truthy;
    var r := Assessed(s);
    SoundFull(s);
    AssessedRefusal(s);
    AssessedAt(s, ORGANIZATION_ID);
    IdsUntouched(s);
    forall f
      ensures !Fillable(r, f)
    {
      AssessedUnfillable(s, f);
    }
    SynchronizedFixed(r);
    AssessedPresent(s);
    SoundParts(r);
  }

  lemma AssessedPresent(s: State)
    requires IdsPresent(s) && RequiredPresent(s)
    ensures IdsPresent(Assessed(s)) && RequiredPresent(Assessed(s))
  {
    hide Assessed, TenantOf, IsId, Required;
    var r := Assessed(s);
    forall f | f in r
      ensures IsId(f) ==> r[f].Str? && r[f].text != ""
      ensures Required(f) ==> r[f] != Nothing
    {
      RiskFieldRules(f);
      AssessedAt(s, f);
    }
  }

  lemma SoundParts(s: State)
    requires Full(s) && IdsPresent(s) && WithIdsStripped(s) == s && RequiredPresent(s) && Refusal(s).None? && Synchronized(s) == s
    ensures Sound(s)
  {
    hide IdsPresent, RequiredPresent, Refusal, Synchronized, WithIdsStripped, Full;
  }

  lemma IdsUntouched(s: State)
    requires Sound(s)
    ensures WithIdsStripped(Assessed(s)) == Assessed(s)
  {
    var r := Assessed(s);
    hide Sound, Assessed, TenantOf, IsId, Stripped;
    forall f | f in r && IsId(f)
      ensures Stripped(r[f]) == r[f]
    {
      RiskFieldRules(f);
      AssessedAt(s, f);
      IdentityStripped(s, f);
    }
  }

  /** So a DECISION-stage write, which does not own the assessment, can change it: in every sound
      state with this assessment and reference. */
  lemma DecisionReplacesAssessment(s: State)
    requires Sound(s)
    ensures var w := Write(Some("decision"), Some(DECISION), map[RISK_ASSESSMENT_FIELD := Nothing]);
            var r := Applied(Assessed(s), w, Screens((u: State) => true, (d: State) => true));
            && Sound(Assessed(s)) && w.WriterStage() !in Owners(RISK_ASSESSMENT_FIELD) && r.Ok?
            && Get(Assessed(s), RISK_ASSESSMENT_FIELD) == Risk("a", TenantOf(s), "fa")
            && Get(r.value, RISK_ASSESSMENT_FIELD) == Risk("r", TenantOf(s), "fr")
  {
    var w := Write(Some("decision"), Some(DECISION), map[RISK_ASSESSMENT_FIELD := Nothing]);
    SoundFull(s);
    AssessedSound(s);
    AssessedRefusal(s);
    AssessedAt(s, RISK_ASSESSMENT_FIELD);
    AssessedAt(s, RISK_ASSESSMENT_REFERENCE);
    SameOwners(RISK_ASSESSMENT_FIELD);
    OwnRisk(TenantOf(s));
    assert w.WriterStage() == DECISION;
    hide Sound, Applied, Assessed, Draft, Owners, Get, TenantOf, Truthy, Foreign, Refusal, Full;
    ClearingPromotesReference(Assessed(s), w, Screens((u: State) => true, (d: State) => true));
  }

  lemma NotIds()
    ensures !IsId(RISK_ASSESSMENT_FIELD) && !IsId(RISK_ASSESSMENT_REFERENCE) && !IsId(ROUTE_HISTORY) && !IsAlias(ROUTE_HISTORY)
  {
  }

  /** A write that leaves the history alone adds one event if it names a next node other
      than the node that wrote last, and none otherwise. */
  lemma HistoryGrows(s: State, w: Write, screens: Screens)
    requires Applied(s, w, screens).Ok? && ROUTE_HISTORY !in w.updates && Get(s, ROUTE_HISTORY).History?
    ensures var added := HistoryOf(Applied(s, w, screens).value);
            if Truthy(Target(w.updates)) && Target(w.updates) != Get(s, CURRENT_NODE) then
              && |added| == |HistoryOf(s)| + 1 && HistoryOf(s) <= added
              && added[|added| - 1].fromNode == w.NodeId() && Str(added[|added| - 1].toNode) == Target(w.updates)
            else added == HistoryOf(s)
  {
    hide Synchronized, Merged, Overlaid, WithIdsStripped, ValidateUpdate, Validated, Applied, IsAlias, IsId, Truthy, Stripped;
    AppliedIs(s, w, screens);
    AppliedTarget(s, w, screens);
    var n, g := w.NodeId(), w.WriterStage();
    OverlaidAt(s, w.updates, n, g, ROUTE_HISTORY);
    MergedAt(s, w.updates, n, g, ROUTE_HISTORY);
    StrippedAt(Merged(s, w.updates, n, g), ROUTE_HISTORY);
    SynchronizedElsewhere(Draft(s, w));
    NotIds();
  }

  /** An accepted write that names a next node names it by a nonempty string. */
  lemma AppliedTarget(s: State, w: Write, screens: Screens)
    requires Applied(s, w, screens).Ok?
    ensures Truthy(Target(w.updates)) <==> Target(w.updates).Str? && Target(w.updates).text != ""
  {
    hide ValidateUpdate, Validated, Merged, Target;
  }

  // ----- the state object, and the operation itself

  /** How many aliases are empty. */
  function Unfilled(s: State): nat {
    Empty(s, EVIDENCE_BUNDLE_ID) + Empty(s, RISK_ASSESSMENT_FIELD) + Empty(s, RISK_ASSESSMENT_REFERENCE)
    + Empty(s, RISK_ASSESSMENT_ID) + Empty(s, NEXT_NODE) + Empty(s, SELECTED_ROUTE)
  }

  function Empty(s: State, f: Field): nat {
    if Truthy(Get(s, f)) then 0 else 1
  }

  lemma FillOneSources(s: State, f: Field, g: Field)
    requires Fillable(s, f)
    ensures Source(s[f := Source(s, f)], g) == Source(s, g)
  {
    var r := s[f := Source(s, f)];
    FillableIsEmptyAlias(s, f);
    assert ActiveRisk(r) == ActiveRisk(s);
    assert Target(r) == Target(s);
    hide ActiveRisk, Target, Truthy;
  }

  lemma FillOneUnfilled(s: State, f: Field)
    requires Fillable(s, f)
    ensures Unfilled(s[f := Source(s, f)]) < Unfilled(s)
  {
    FillableIsEmptyAlias(s, f);
    hide Source, Truthy;
  }

  /** Filling one alias changes neither the outcome of filling all nor what is refused. */
  lemma FillOne(s: State, f: Field)
    requires Fillable(s, f)
    ensures Synchronized(s[f := Source(s, f)]) == Synchronized(s)
    ensures Refusal(s[f := Source(s, f)]) == Refusal(s)
  {
    var r := s[f := Source(s, f)];
    FillableIsEmptyAlias(s, f);
    SynchronizedElsewhere(r);
    SynchronizedElsewhere(s);
    RefusalKept(r);
    RefusalKept(s);
    hide Refusal, Source, Truthy, Synchronized, IsAlias;
    forall g | g in s
      ensures Synchronized(r)[g] == Synchronized(s)[g]
    {
      FillOneSources(s, f, g);
      SynchronizedAt(r, g);
      SynchronizedAt(s, g);
    }
  }

  /** The code's test before it assigns the alias. */
  predicate Wants(s: State, f: Field) {
    match f
    case EVIDENCE_BUNDLE_ID => Truthy(Source(s, f)) && !Truthy(Get(s, f))
    case RISK_ASSESSMENT_ID => Truthy(Get(s, RISK_ASSESSMENT_FIELD)) && Truthy(Source(s, f)) && !Truthy(Get(s, f))
    case RISK_ASSESSMENT_REFERENCE => Truthy(Get(s, RISK_ASSESSMENT_FIELD)) && !Truthy(Get(s, f))
    case RISK_ASSESSMENT_FIELD => Truthy(Get(s, RISK_ASSESSMENT_REFERENCE)) && !Truthy(Get(s, f))
    case NEXT_NODE => Truthy(Get(s, SELECTED_ROUTE)) && !Truthy(Get(s, f))
    case SELECTED_ROUTE => Truthy(Get(s, NEXT_NODE)) && !Truthy(Get(s, f))
    case _ => false
  }

  /** When every test fails there is nothing to fill in. */
  lemma TestsCover(s: State)
    requires Full(s)
    requires !Wants(s, EVIDENCE_BUNDLE_ID) && !Wants(s, RISK_ASSESSMENT_ID) && !Wants(s, RISK_ASSESSMENT_REFERENCE)
    requires !Wants(s, RISK_ASSESSMENT_FIELD) && !Wants(s, NEXT_NODE) && !Wants(s, SELECTED_ROUTE)
    ensures Synchronized(s) == s
  {
    forall f
      ensures !Fillable(s, f)
    {
      FillableIsEmptyAlias(s, f);
    }
    SynchronizedFixed(s);
  }

  lemma TestsDone(s: State, f: Field)
    requires Full(s)
    ensures !Wants(Synchronized(s), f)
  {
    SynchronizedTwice(s);
    SynchronizedElsewhere(s);
  }

  class AgentGraphState {
    var data: State

    constructor (data: State)
      ensures this.data == data
    {
      this.data := data;
    }

    /** Checks the invariants, then fills in the aliases in place. */
    method ValidateStateInvariants() returns (refused: Option<UpdateError>)
      requires Full(data)
      modifies this
      ensures refused == Refusal(old(data))
      ensures data == if refused.None? then Synchronized(old(data)) else old(data)
      decreases Unfilled(data), 2
    {
      refused := Refusal(data);
      if refused.Some? {
        return;
      }
      FillAliases();
    }

    method FillAliases()
      requires Full(data) && Refusal(data).None?
      modifies this
      ensures data == Synchronized(old(data))
      decreases Unfilled(data), 1
    {
      ghost var s := data;
      hide *;
      FillIfWanted(EVIDENCE_BUNDLE_ID, s);
      FillIfWanted(RISK_ASSESSMENT_ID, s);
      FillIfWanted(RISK_ASSESSMENT_REFERENCE, s);
      FillIfWanted(RISK_ASSESSMENT_FIELD, s);
      FillIfWanted(NEXT_NODE, s);
      FillIfWanted(SELECTED_ROUTE, s);
      if data != Synchronized(s) {
        TestsCover(s);
      }
    }

    /** Tests one alias and, if it is wanted, assigns it; assigning validates the state again. */
    method FillIfWanted(f: Field, ghost s: State)
      requires Full(s) && Refusal(s).None? && (data == s || data == Synchronized(s))
      modifies this
      ensures data == Synchronized(s) || (data == s && !Wants(s, f))
      ensures old(data) == Synchronized(s) ==> data == Synchronized(s)
      decreases Unfilled(s), 0
    {
      TestsDone(s, f);
      hide Refusal, Synchronized, Source, Unfilled, Truthy, IsAlias, Wants;
      if Wants(data, f) {
        FillOne(s, f);
        FillOneUnfilled(s, f);
        data := data[f := Source(data, f)];
        var _ := ValidateStateInvariants();
      }
    }
  }

  lemma SoundIsFull(s: State)
    requires Sound(s)
    ensures Full(s)
  {
    hide IdsPresent, RequiredPresent, Refusal, Synchronized, WithIdsStripped, Full;
  }

  lemma MergedFull(s: State, w: Write)
    requires Full(s)
    ensures Full(WithIdsStripped(Merged(s, w.updates, w.NodeId(), w.WriterStage())))
  {
    MergedAt(s, w.updates, w.NodeId(), w.WriterStage(), RUN_ID);
    hide Merged, IsId, Stripped;
  }

  /** Builds the new state from a copy of the current one, which is left alone. */
  method ApplyStateUpdate(current: AgentGraphState, w: Write, screens: Screens) returns (r: Result<AgentGraphState, UpdateError>)
    requires Full(current.data)
    ensures r.Ok? ==> fresh(r.value) && Applied(current.data, w, screens) == Ok(r.value.data)
    ensures r.Err? ==> Applied(current.data, w, screens) == Err(r.error)
  {
    hide ValidateUpdate, Refusal, Synchronized, WithIdsStripped, IdsPresent, RequiredPresent, Truthy, Target, Full, EventOf, HistoryOf;
    var refused := ValidateUpdate(current.data, w.updates, w.WriterStage(), screens);
    if refused.Some? {
      return Err(refused.value);
    }
    var data := current.data + w.updates;
    data := data[CURRENT_NODE := Str(w.NodeId())];
    data := data[CURRENT_STAGE := InStage(w.WriterStage())];
    var target := Target(w.updates);
    if Truthy(target) && !target.Str? {
      return Err(Invalid);
    }
    if Moves(current.data, w.updates) {
      var event := EventOf(w.updates, w.NodeId(), data);
      data := data[ROUTE_HISTORY := History(HistoryOf(current.data) + [event])];
    }
    assert data == Merged(current.data, w.updates, w.NodeId(), w.WriterStage());
    MergedFull(current.data, w);
    data := WithIdsStripped(data);
    if !IdsPresent(data) {
      return Err(CrossTenant);
    }
    if !RequiredPresent(data) || !screens.state(data) {
      return Err(Invalid);
    }
    var state := new AgentGraphState(data);
    refused := state.ValidateStateInvariants();
    if refused.Some? {
      return Err(refused.value);
    }
    r := Ok(state);
  }
}
