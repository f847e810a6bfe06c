/** The harness around every node: guards, bounded retries and the check of its outputs. */
module Execution {
  import opened Results
  import opened AgentModel
  import opened StateContract
  import opened Text

  datatype ErrorCategory =
    | VALIDATION_ERROR | SECURITY_ERROR | TENANT_ISOLATION_ERROR | AUTHORIZATION_ERROR | CONTRACT_ERROR
    | DEPENDENCY_ERROR | TIMEOUT_ERROR | TRANSIENT_ERROR | RATE_LIMIT_ERROR | STATE_ERROR | ROUTING_ERROR
    | APPROVAL_ERROR | PERSISTENCE_ERROR | INTERNAL_ERROR | UNKNOWN_ERROR

  /** What a handler may raise: a graph error with its own classification, or another
      exception, already put in its category. */
  datatype Failure =
    | GraphError(category: ErrorCategory, retryableFlag: bool)
    | Timeout
    | Connection
    | OtherError(category: ErrorCategory)

  function Category(f: Failure): ErrorCategory {
    match f
    case GraphError(c, _) => c
    case Timeout => TIMEOUT_ERROR
    case Connection => TRANSIENT_ERROR
    case OtherError(c) => c
  }

  predicate Retryable(f: Failure) {
    Category(f) !in {SECURITY_ERROR, TENANT_ISOLATION_ERROR, AUTHORIZATION_ERROR, CONTRACT_ERROR, VALIDATION_ERROR, STATE_ERROR, APPROVAL_ERROR}
    && match f
       case GraphError(_, flag) => flag
       case Timeout => true
       case Connection => true
       case OtherError(c) => c in {DEPENDENCY_ERROR, TIMEOUT_ERROR, TRANSIENT_ERROR, RATE_LIMIT_ERROR, PERSISTENCE_ERROR}
  }

  datatype Contract = Contract(
    node: NodeContract,
    requiredInputs: seq<Field>,
    allowedOutputs: seq<Field>,
    requiresEvidence: bool,
    minimumEvidence: nat,
    requiredReferences: seq<string>,
    requiredRoles: set<string>,
    requiredPermissions: set<string>)

  datatype Context = Context(
    organizationId: string, role: string, roles: set<string>, permissions: set<string>, allowedStages: set<Stage>,
    isAdmin: bool, maxSteps: int, maxRetries: nat)

  datatype Error =
    | TenantIsolation | Unauthorized | ApprovalBoundary | MissingInput | MaxStepsExceeded | Failed(failure: Failure)

  predicate Contains(s: string, part: string) {
    exists i :: 0 <= i <= |s| && part <= s[i..]
  }

  predicate ForeignPrefix(ref: string, org: string) {
    ':' in ref
    && var prefix := Before(ref, ':');
       ("org_" <= prefix || Contains(prefix, "tenant") || Contains(prefix, "foreign")) && prefix != org
  }

  predicate ForeignIn(v: Value, org: string) {
    match v
    case Bundle(_, owner, _) => owner != "" && Strip(owner) != org
    case Risk(_, owner, _) => owner != "" && Strip(owner) != org
    case Refs(refs) => exists r :: r in refs && ForeignPrefix(r, org)
    case Str(ref) => ForeignPrefix(ref, org)
    case _ => false
  }

  predicate TenantMatches(s: State, context: Context) {
    var org := Strip(context.organizationId);
    && org != "" && org == Strip(TenantOf(s))
    && !ForeignIn(Get(s, EVIDENCE_BUNDLE), org) && !ForeignIn(Get(s, RISK_ASSESSMENT_FIELD), org)
    && !ForeignIn(Get(s, EVIDENCE_REFERENCES), org) && !ForeignIn(Get(s, RISK_ALERT_REFERENCES), org)
    && !ForeignIn(Get(s, RECOMMENDATION_REFERENCES), org) && !ForeignIn(Get(s, APPROVAL_REFERENCE), org)
  }

  predicate Authorized(c: Contract, context: Context) {
    || context.isAdmin
    || (&& (c.requiredRoles == {} || (if context.roles != {} then context.roles else {context.role}) * c.requiredRoles != {})
        && c.requiredPermissions <= context.permissions
        && (context.allowedStages == {} || c.node.stage in context.allowedStages))
  }

  predicate Missing(v: Value) {
    v == Nothing || v == Str("") || v == Refs([]) || v == Dict(map[]) || v == History([])
  }

  function EvidenceCount(s: State): nat {
    var n := |RefsOf(s)|;
    if Truthy(Get(s, EVIDENCE_BUNDLE)) && n < 1 then 1 else n
  }

  function RefsOf(s: State): seq<string> {
    if Get(s, EVIDENCE_REFERENCES).Refs? then s[EVIDENCE_REFERENCES].refs else []
  }

  predicate Bound(s: State, ref: string) {
    (Get(s, Plain("input_references")).Dict? && ref in s[Plain("input_references")].fields) || ref in RefsOf(s)
  }

  predicate InputsPresent(s: State, c: Contract) {
    && (forall i :: 0 <= i < |c.requiredInputs| ==> !Missing(Get(s, c.requiredInputs[i])))
    && (c.requiresEvidence ==> EvidenceCount(s) >= c.minimumEvidence)
    && (forall i :: 0 <= i < |c.requiredReferences| ==> Bound(s, c.requiredReferences[i]))
  }

  function StepCount(s: State): int {
    if Get(s, STEP_COUNT).Count? then s[STEP_COUNT].count else 0
  }

  predicate SideEffectsCleared(s: State, c: Contract) {
    c.node.isSideEffecting ==> !Truthy(Get(s, REQUIRES_HUMAN_APPROVAL)) && Truthy(Get(s, SIDE_EFFECT_ALLOWED))
  }

  /** The guards, in order; the handler is called only if none refuses. */
  function Guard(s: State, c: Contract, context: Option<Context>): Option<Error> {
    if Strip(TenantOf(s)) == "" then Some(TenantIsolation)
    else if context.Some? && !TenantMatches(s, context.value) then Some(TenantIsolation)
    else if context.Some? && !Authorized(c, context.value) then Some(Unauthorized)
    else if !SideEffectsCleared(s, c) then Some(Error.ApprovalBoundary)
    else if !InputsPresent(s, c) then Some(MissingInput)
    else if StepCount(s) >= (if context.Some? then context.value.maxSteps else 25) then Some(MaxStepsExceeded)
    else None
  }

  predicate AlwaysPermitted(f: Field) {
    f in {CURRENT_STAGE, CURRENT_NODE, STEP_COUNT, STATUS, Plain("metadata"), Plain("warnings"), ROUTE_HISTORY,
          COMPLETED_AT, TERMINATION_REASON, SELECTED_ROUTE, NEXT_NODE, ROUTE_REASON}
  }

  predicate OutputsPermitted(u: State, c: Contract) {
    c.allowedOutputs != [] ==> forall f :: f in u ==> f in c.allowedOutputs || AlwaysPermitted(f)
  }

  /** A node about to run: `answers(i)` is what its handler does when called for the i-th time. */
  datatype Turn = Turn(contract: Contract, context: Option<Context>, answers: nat -> Result<State, Failure>)
  {
    function MaxRetries(): nat {
      if context.Some? then context.value.maxRetries else 3
    }

    /** One call: an output the contract does not declare is an error of the state category. */
    function Attempt(i: nat): Result<State, Failure> {
      if answers(i).Ok? && !OutputsPermitted(answers(i).value, contract) then Err(GraphError(STATE_ERROR, false)) else answers(i)
    }

    /** The call at which retrying ends. */
    function LastCall(i: nat): (k: nat)
      ensures k >= i
      decreases MaxRetries() - i
    {
      if Attempt(i).Err? && Retryable(Attempt(i).error) && i < MaxRetries() then LastCall(i + 1) else i
    }
  }

  /** The calls before the last all failed retryably; the last is the first that did not,
      or the retries are used up; and there are at most `max(1, maxRetries)`. */
  lemma {:induction false} LastCallIsFirst(t: Turn, i: nat)
    ensures var k := t.LastCall(i);
            && (forall j :: i <= j < k ==> t.Attempt(j).Err? && Retryable(t.Attempt(j).error))
            && (t.Attempt(k).Ok? || !Retryable(t.Attempt(k).error) || k >= t.MaxRetries())
            && (k == i || k <= t.MaxRetries())
    decreases t.MaxRetries() - i
  {
    hide Retryable;
    if t.Attempt(i).Err? && Retryable(t.Attempt(i).error) && i < t.MaxRetries() {
      LastCallIsFirst(t, i + 1);
    }
  }

  /** The outcome of a turn: how often the handler is called, and what comes of it. */
  function Calls(s: State, t: Turn): nat {
    if Guard(s, t.contract, t.context).Some? then 0 else t.LastCall(1)
  }

  function Outcome(s: State, t: Turn): Result<State, Error> {
    var refused := Guard(s, t.contract, t.context);
    if refused.Some? then Err(refused.value)
    else
      match t.Attempt(t.LastCall(1))
      case Ok(u) => Ok(u)
      case Err(f) => Err(Failed(f))
  }

  lemma GuardClears(s: State, t: Turn)
    requires Guard(s, t.contract, t.context).None? && t.contract.node.isSideEffecting
    ensures Truthy(Get(s, SIDE_EFFECT_ALLOWED)) && !Truthy(Get(s, REQUIRES_HUMAN_APPROVAL))
  {
    hide TenantMatches, Authorized, InputsPresent, Truthy;
  }

  // ----- when the handler is called

  ghost predicate Has(s: string, part: string) {
    exists a, b :: s == a + part + b
  }

  /** What precedes the first colon names no organization or tenant, or this one. */
  ghost predicate OurRef(ref: string, org: string) {
    forall prefix, rest :: ref == prefix + ":" + rest && ':' !in prefix ==>
                             prefix == org || !("org_" <= prefix || Has(prefix, "tenant") || Has(prefix, "foreign"))
  }

  ghost predicate OurOwn(v: Value, org: string) {
    match v
    case Bundle(_, owner, _) => owner == "" || Strip(owner) == org
    case Risk(_, owner, _) => owner == "" || Strip(owner) == org
    case Refs(refs) => forall r :: r in refs ==> OurRef(r, org)
    case Str(ref) => OurRef(ref, org)
    case _ => true
  }

  /** The fields compared with the tenant of the context. */
  const BOUND := {EVIDENCE_BUNDLE, RISK_ASSESSMENT_FIELD, EVIDENCE_REFERENCES, RISK_ALERT_REFERENCES, RECOMMENDATION_REFERENCES,
                  APPROVAL_REFERENCE}

  /** The tenant is present, and where there is a context, it is the context's, and nothing bound in
      the state is another's. */
  ghost predicate OwnTenant(s: State, context: Option<Context>) {
    && ORGANIZATION_ID in s && s[ORGANIZATION_ID].Str?
    && var tenant := Strip(s[ORGANIZATION_ID].text);
       && tenant != ""
       && (context.Some? ==> Strip(context.value.organizationId) == tenant && forall f :: f in BOUND ==> OurOwn(Get(s, f), tenant))
  }

  /** There is no context, or an administrator's, or one that has one of the roles, all of the
      permissions, and the stage, so far as any are asked for. */
  ghost predicate MayRun(c: Contract, context: Option<Context>) {
    context.Some? && !context.value.isAdmin ==>
      && (c.requiredRoles != {} ==>
            exists r :: r in c.requiredRoles && (r in context.value.roles || (context.value.roles == {} && r == context.value.role)))
      && (forall p :: p in c.requiredPermissions ==> p in context.value.permissions)
      && (forall stage :: stage in context.value.allowedStages ==> c.node.stage in context.value.allowedStages)
  }

  ghost function Evidence(s: State): (refs: seq<string>)
    ensures EVIDENCE_REFERENCES in s && s[EVIDENCE_REFERENCES].Refs? ==> refs == s[EVIDENCE_REFERENCES].refs
    ensures !(EVIDENCE_REFERENCES in s && s[EVIDENCE_REFERENCES].Refs?) ==> refs == []
  {
    RefsOf(s)
  }

  /** Every required input holds something, and evidence and references are there. */
  ghost predicate Supplied(s: State, c: Contract) {
    && (forall f :: f in c.requiredInputs ==>
                      f in s && s[f] !in {Nothing, Str(""), Refs([]), Dict(map[]), History([])})
    && (c.requiresEvidence ==>
          c.minimumEvidence <= |Evidence(s)| || (c.minimumEvidence <= 1 && Truthy(Get(s, EVIDENCE_BUNDLE))))
    && (forall ref :: ref in c.requiredReferences ==>
                        ref in Evidence(s) || (Get(s, Plain("input_references")).Dict? && ref in s[Plain("input_references")].fields))
  }

  /** The steps taken are fewer than the context allows, or than 25. */
  ghost predicate StepsLeft(s: State, context: Option<Context>) {
    var taken := if Get(s, STEP_COUNT).Count? then s[STEP_COUNT].count else 0;
    (context.Some? ==> taken < context.value.maxSteps) && (context.None? ==> taken < 25)
  }

  ghost predicate Unapproved(s: State, c: Contract) {
    c.node.isSideEffecting && (Truthy(Get(s, REQUIRES_HUMAN_APPROVAL)) || !Truthy(Get(s, SIDE_EFFECT_ALLOWED)))
  }

  /** The handler is called exactly if all five guards allow it; otherwise the first that does not
      says what is raised. */
  lemma CalledExactly(s: State, t: Turn)
    ensures Calls(s, t) > 0 <==>
            && OwnTenant(s, t.context) && MayRun(t.contract, t.context) && !Unapproved(s, t.contract)
            && Supplied(s, t.contract) && StepsLeft(s, t.context)
    ensures Calls(s, t) == 0 ==>
              Outcome(s, t) == Err(if !OwnTenant(s, t.context) then TenantIsolation
                                   else if !MayRun(t.contract, t.context) then Unauthorized
                                   else if Unapproved(s, t.contract) then Error.ApprovalBoundary
                                   else if !Supplied(s, t.contract) then MissingInput
                                   else MaxStepsExceeded)
  {
    hide TenantMatches, Authorized, InputsPresent, OwnTenant, MayRun, Supplied, Truthy, Strip;
    TenantGuard(s, t.context);
    RightsGuard(t.contract, t.context);
    InputGuard(s, t.contract);
  }

  lemma TenantGuard(s: State, context: Option<Context>)
    ensures OwnTenant(s, context) <==> Strip(TenantOf(s)) != "" && (context.Some? ==> TenantMatches(s, context.value))
  {
    hide Strip, ForeignIn, OurOwn;
    StripNothing();
    if context.Some? && Strip(context.value.organizationId) == Strip(TenantOf(s)) {
      forall f
        ensures OurOwn(Get(s, f), Strip(TenantOf(s))) <==> !ForeignIn(Get(s, f), Strip(TenantOf(s)))
      {
        OwnExactly(Get(s, f), Strip(TenantOf(s)));
      }
    }
  }

  lemma RightsGuard(c: Contract, context: Option<Context>)
    ensures MayRun(c, context) <==> (context.Some? ==> Authorized(c, context.value))
  {
    if context.Some? && c.requiredRoles != {} {
      var held := if context.value.roles != {} then context.value.roles else {context.value.role};
      if r :| r in c.requiredRoles && r in held {
        assert r in held * c.requiredRoles;
      }
    }
  }

  lemma InputGuard(s: State, c: Contract)
    ensures Supplied(s, c) <==> InputsPresent(s, c)
  {
    hide Truthy;
    assert Evidence(s) == RefsOf(s);
    hide RefsOf, Evidence;
    assert forall f :: f in c.requiredInputs <==> exists i :: 0 <= i < |c.requiredInputs| && c.requiredInputs[i] == f;
    assert forall r :: r in c.requiredReferences <==> exists i :: 0 <= i < |c.requiredReferences| && c.requiredReferences[i] == r;
  }

  lemma OwnExactly(v: Value, org: string)
    ensures OurOwn(v, org) <==> !ForeignIn(v, org)
  {
    hide ForeignPrefix, OurRef;
    if v.Refs? {
      forall r | r in v.refs
        ensures OurRef(r, org) <==> !ForeignPrefix(r, org)
      {
        RefExactly(r, org);
      }
    } else if v.Str? {
      RefExactly(v.text, org);
    }
  }

  lemma RefExactly(ref: string, org: string)
    ensures OurRef(ref, org) <==> !ForeignPrefix(ref, org)
  {
    hide Contains, Before, Has;
    forall prefix, rest | ref == prefix + ":" + rest && ':' !in prefix
      ensures Before(ref, ':') == prefix && ':' in ref
    {
      BeforeFirst(prefix, ':', rest);
      assert ref[|prefix|] == ':';
    }
    ContainsExactly(Before(ref, ':'), "tenant");
    ContainsExactly(Before(ref, ':'), "foreign");
    if ':' in ref {
      SplitAt(ref, ':');
    }
  }

  lemma ContainsExactly(s: string, part: string)
    ensures Contains(s, part) <==> Has(s, part)
  {
    if i :| 0 <= i <= |s| && part <= s[i..] {
      assert s == s[..i] + part + s[i + |part|..];
    }
    if a, b :| s == a + part + b {
      assert part <= s[|a|..];
    }
  }

  /** What is retried: time-outs and lost connections, errors of the five categories that pass, and
      flagged graph errors of those or of the three that are neither a refusal nor a fault of the state. */
  lemma RetryableExactly(f: Failure)
    ensures Retryable(f) <==>
            match f
            case Timeout => true
            case Connection => true
            case OtherError(c) => c in {DEPENDENCY_ERROR, TIMEOUT_ERROR, TRANSIENT_ERROR, RATE_LIMIT_ERROR, PERSISTENCE_ERROR}
            case GraphError(c, flag) =>
              flag && c in {DEPENDENCY_ERROR, TIMEOUT_ERROR, TRANSIENT_ERROR, RATE_LIMIT_ERROR, PERSISTENCE_ERROR,
                            ROUTING_ERROR, INTERNAL_ERROR, UNKNOWN_ERROR}
  {
    var c := Category(f);
    assert c.VALIDATION_ERROR? || c.SECURITY_ERROR? || c.TENANT_ISOLATION_ERROR? || c.AUTHORIZATION_ERROR? || c.CONTRACT_ERROR?
           || c.STATE_ERROR? || c.APPROVAL_ERROR? || c.DEPENDENCY_ERROR? || c.TIMEOUT_ERROR? || c.TRANSIENT_ERROR?
           || c.RATE_LIMIT_ERROR? || c.PERSISTENCE_ERROR? || c.ROUTING_ERROR? || c.INTERNAL_ERROR? || c.UNKNOWN_ERROR?;
  }

  /** What one call of the handler comes to: an output field that the contract does not declare, and
      that is none of the lifecycle's, is an error of the state. */
  lemma AttemptExactly(t: Turn, i: nat)
    ensures t.MaxRetries() == if t.context.None? then 3 else t.context.value.maxRetries
    ensures t.Attempt(i)
            == if t.answers(i).Ok? && t.contract.allowedOutputs != []
                  && exists f :: f in t.answers(i).value && f !in t.contract.allowedOutputs && !Lifecycled(f)
               then Err(GraphError(STATE_ERROR, false)) else t.answers(i)
  {
    hide AlwaysPermitted, Lifecycled;
    if t.answers(i).Ok? {
      forall f
        ensures AlwaysPermitted(f) <==> Lifecycled(f)
      {
        LifecycleTable(f);
      }
    }
  }

  /** The fields of the lifecycle and of telemetry, which any node may return. */
  predicate Lifecycled(f: Field) {
    match f
    case CURRENT_STAGE | CURRENT_NODE | STATUS | STEP_COUNT | SELECTED_ROUTE | NEXT_NODE | ROUTE_REASON | ROUTE_HISTORY => true
    case COMPLETED_AT | TERMINATION_REASON => true
    case Plain(name) => name == "metadata" || name == "warnings"
    case _ => false
  }

  lemma LifecycleTable(f: Field)
    ensures AlwaysPermitted(f) <==> Lifecycled(f)
  {
  }

  /** How often the handler is called once it is, and what comes of it. */
  lemma CallsExactly(s: State, t: Turn)
    requires Calls(s, t) > 0
    ensures var k := Calls(s, t);
            && (forall j :: 1 <= j < k ==> t.Attempt(j).Err? && Retryable(t.Attempt(j).error))
            && (t.Attempt(k).Ok? || !Retryable(t.Attempt(k).error) || k >= t.MaxRetries())
            && (k == 1 || k <= t.MaxRetries())
            && Outcome(s, t) == (match t.Attempt(k) case Ok(u) => Ok(u) case Err(f) => Err(Failed(f)))
  {
    hide Guard, Retryable;
    LastCallIsFirst(t, 1);
  }

  method Execute(s: State, t: Turn) returns (r: Result<State, Error>, calls: nat)
    ensures r == Outcome(s, t) && calls == Calls(s, t)
    ensures r.Ok? ==> calls >= 1 && t.answers(calls) == Ok(r.value) && OutputsPermitted(r.value, t.contract)
    ensures calls <= 1 || calls <= t.MaxRetries()
    ensures calls > 0 && t.contract.node.isSideEffecting ==>
              Truthy(Get(s, SIDE_EFFECT_ALLOWED)) && !Truthy(Get(s, REQUIRES_HUMAN_APPROVAL))
  {
    hide Retryable, OutputsPermitted, Guard, Truthy;
    LastCallIsFirst(t, 1);
    if Guard(s, t.contract, t.context).None? && t.contract.node.isSideEffecting {
      GuardClears(s, t);
    }
    var refused := Guard(s, t.contract, t.context);
    if refused.Some? {
      return Err(refused.value), 0;
    }
    var attempt := 1;
    while true
      invariant attempt >= 1 && t.LastCall(1) == t.LastCall(attempt)
      decreases t.MaxRetries() - attempt
    {
      var answer := t.answers(attempt);
      if answer.Ok? && !OutputsPermitted(answer.value, t.contract) {
        answer := Err(GraphError(STATE_ERROR, false));
      }
      if answer.Ok? {
        return Ok(answer.value), attempt;
      }
      if !(Retryable(answer.error) && attempt < t.MaxRetries()) {
        return Err(Failed(answer.error)), attempt;
      }
      attempt := attempt + 1;
    }
  }

  // ----- runs that alternate executing a node and applying its update

  function Update(s: State, t: Turn): Write
    requires Outcome(s, t).Ok?
  {
    Write(Some(t.contract.node.nodeId), Some(t.contract.node.stage), Outcome(s, t).value)
  }

  /** A turn that raises, or whose update is refused, leaves the state as it was. */
  function Step(s: State, t: Turn, screens: Screens): State {
    if Outcome(s, t).Ok? then After(s, Update(s, t), screens) else s
  }

  /** A turn leaves the state that its update makes of it, if the handler answers and the update,
      written in the name of the node and its stage, is accepted. */
  lemma StepExactly(s: State, t: Turn, screens: Screens)
    ensures var w := Write(Some(t.contract.node.nodeId), Some(t.contract.node.stage), if Outcome(s, t).Ok? then Outcome(s, t).value else map[]);
            Step(s, t, screens) == if Outcome(s, t).Ok? && Applied(s, w, screens).Ok? then Applied(s, w, screens).value else s
  {
    hide Outcome, Applied;
  }

  function Play(s: State, ts: seq<Turn>, screens: Screens): State {
    if ts == [] then s else Step(Play(s, ts[..|ts| - 1], screens), ts[|ts| - 1], screens)
  }

  /** A turn of an APPROVAL-stage node whose accepted update sets the flag. */
  predicate Grants(s: State, t: Turn, screens: Screens) {
    && t.contract.node.stage == APPROVAL && Outcome(s, t).Ok?
    && Truthy(Get(Outcome(s, t).value, SIDE_EFFECT_ALLOWED))
    && Applied(s, Update(s, t), screens).Ok?
  }

  lemma FlagNeedsGrant(s: State, t: Turn, screens: Screens)
    requires Sound(s)
    ensures Sound(Step(s, t, screens))
    ensures Truthy(Get(Step(s, t, screens), SIDE_EFFECT_ALLOWED)) ==> Truthy(Get(s, SIDE_EFFECT_ALLOWED)) || Grants(s, t, screens)
  {
    hide Sound, Outcome, Applied, Truthy;
    if Outcome(s, t).Ok? {
      var w := Update(s, t);
      if Applied(s, w, screens).Ok? {
        assert Full(s) by {
          SoundIsFull(s);
        }
        AppliedSound(s, w, screens);
        if !Truthy(Get(s, SIDE_EFFECT_ALLOWED)) && Truthy(Get(Step(s, t, screens), SIDE_EFFECT_ALLOWED)) {
          FlagSetByApproval(s, w, screens);
        }
      }
    }
  }

  lemma {:induction false} FlagComesFromGrant(s: State, ts: seq<Turn>, screens: Screens)
    requires Sound(s) && !Truthy(Get(s, SIDE_EFFECT_ALLOWED))
    ensures Sound(Play(s, ts, screens))
    ensures Truthy(Get(Play(s, ts, screens), SIDE_EFFECT_ALLOWED)) ==>
              exists k :: 0 <= k < |ts| && Grants(Play(s, ts[..k], screens), ts[k], screens)
    decreases |ts|
  {
    hide Sound, Step, Get, Truthy, Grants;
    if ts != [] {
      var n := |ts| - 1;
      FlagComesFromGrant(s, ts[..n], screens);
      FlagNeedsGrant(Play(s, ts[..n], screens), ts[n], screens);
      if k :| 0 <= k < n && Grants(Play(s, ts[..n][..k], screens), ts[..n][k], screens) {
        assert ts[..n][..k] == ts[..k];
      }
    }
  }

  /** In any run that starts with the flag unset, a side-effecting handler is called only
      after the update of an APPROVAL-stage node has set the flag, and only while no human
      approval is required. */
  lemma ApprovalBeforeSideEffects(s: State, ts: seq<Turn>, t: Turn, screens: Screens)
    requires Sound(s) && !Truthy(Get(s, SIDE_EFFECT_ALLOWED))
    requires t.contract.node.isSideEffecting && Calls(Play(s, ts, screens), t) > 0
    ensures !Truthy(Get(Play(s, ts, screens), REQUIRES_HUMAN_APPROVAL))
    ensures exists k :: 0 <= k < |ts| && Grants(Play(s, ts[..k], screens), ts[k], screens)
  {
    hide Play, Sound, Grants, Truthy, Calls, Get;
    CalledCleared(Play(s, ts, screens), t);
    FlagComesFromGrant(s, ts, screens);
  }

  lemma CalledCleared(s: State, t: Turn)
    requires t.contract.node.isSideEffecting && Calls(s, t) > 0
    ensures Truthy(Get(s, SIDE_EFFECT_ALLOWED)) && !Truthy(Get(s, REQUIRES_HUMAN_APPROVAL))
  {
    hide Truthy, TenantMatches, Authorized, InputsPresent;
  }

  /** In particular in every run from a new state. */
  lemma ApprovalBeforeSideEffectsFromStart(who: Identity, startedAt: string, ts: seq<Turn>, t: Turn, screens: Screens)
    requires Named(who)
    requires t.contract.node.isSideEffecting && Calls(Play(NewState(who, startedAt), ts, screens), t) > 0
    ensures exists k :: 0 <= k < |ts| && Grants(Play(NewState(who, startedAt), ts[..k], screens), ts[k], screens)
  {
    hide Play, Sound, Grants, Calls, NewState, Named, Get;
    NewSound(who, startedAt);
    ApprovalBeforeSideEffects(NewState(who, startedAt), ts, t, screens);
  }
}
