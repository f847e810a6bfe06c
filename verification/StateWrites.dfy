/** Which updates of the shared state are accepted, with what outcome, field by field. */
module StateWrites {
  import opened Results
  import opened AgentModel
  import opened StateContract
  import opened Text
  import TwinModel

  /** The fields a stage may write, of those that only some stages may. */
  predicate Writes(stage: Stage, f: Field) {
    match stage
    case INITIALIZATION => f.REQUIRES_HUMAN_APPROVAL?
    case RESEARCH => f.EVIDENCE_BUNDLE? || f.EVIDENCE_BUNDLE_ID? || f.EVIDENCE_REFERENCES? || f.CITATION_REFERENCES?
    case RISK_ASSESSMENT =>
      f.RISK_ASSESSMENT_FIELD? || f.RISK_ASSESSMENT_ID? || f.RISK_ASSESSMENT_REFERENCE? || f.RISK_ALERT_REFERENCES? || f.RISK_EXPLANATION?
    case PREDICTION => f.PREDICTION_ID? || f.PREDICTION_REFERENCE? || f.PREDICTION_RESULT? || f.PREDICTION_EXPLANATION?
    case SCENARIO_ANALYSIS => f.SCENARIO_ID? || f.SCENARIO_REFERENCE? || f.SCENARIO_RESULT? || f.SCENARIO_EXPLANATION?
    case SIMULATION => f.SIMULATION_ID? || f.SIMULATION_REFERENCE? || f.SIMULATION_RESULT? || f.SIMULATION_RESULTS? || f.SIMULATION_EXPLANATION?
    case OPTIMIZATION =>
      f.OPTIMIZATION_ID? || f.OPTIMIZATION_REFERENCE? || f.OPTIMIZATION_RESULT? || f.OPTIMIZATION_PLAN? || f.OPTIMIZATION_EXPLANATION?
    case DECISION =>
      f.DECISION_ID? || f.DECISION_REFERENCE? || f.DECISION_RESULT? || f.DECISION_EXPLANATION? || f.RECOMMENDATION_REFERENCES? || f.REQUIRES_HUMAN_APPROVAL?
    case APPROVAL =>
      f.REQUIRES_HUMAN_APPROVAL? || f.APPROVAL_ID? || f.APPROVAL_REFERENCE? || f.APPROVAL_RESULT? || f.APPROVAL_STATUS? || f.SIDE_EFFECT_ALLOWED?
    case ACTION => f.ACTION_ID? || f.ACTION_REFERENCE? || f.ACTION_RESULT? || f.ACTION_STATUS?
    case VERIFICATION => f.VERIFICATION_ID? || f.VERIFICATION_REFERENCE? || f.VERIFICATION_RESULT? || f.VERIFICATION_STATUS?
    case TERMINATION => f.COMPLETED_AT? || f.TERMINATION_REASON?
  }

  lemma OwnersAssessing(stage: Stage, f: Field)
    requires stage.INITIALIZATION? || stage.RESEARCH? || stage.RISK_ASSESSMENT?
    ensures stage in Owners(f) <==> Writes(stage, f)
  {
  }

  lemma OwnersForeseeing(stage: Stage, f: Field)
    requires stage.PREDICTION? || stage.SCENARIO_ANALYSIS? || stage.SIMULATION?
    ensures stage in Owners(f) <==> Writes(stage, f)
  {
  }

  lemma OwnersDeciding(stage: Stage, f: Field)
    requires stage.OPTIMIZATION? || stage.DECISION? || stage.APPROVAL?
    ensures stage in Owners(f) <==> Writes(stage, f)
  {
  }

  lemma OwnersClosing(stage: Stage, f: Field)
    requires stage.ACTION? || stage.VERIFICATION? || stage.TERMINATION?
    ensures stage in Owners(f) <==> Writes(stage, f)
  {
  }

  lemma OwnersWrite(stage: Stage, f: Field)
    ensures stage in Owners(f) <==> Writes(stage, f)
  {
    hide Owners, Writes;
    match stage
    case INITIALIZATION | RESEARCH | RISK_ASSESSMENT => OwnersAssessing(stage, f);
    case PREDICTION | SCENARIO_ANALYSIS | SIMULATION => OwnersForeseeing(stage, f);
    case OPTIMIZATION | DECISION | APPROVAL => OwnersDeciding(stage, f);
    case ACTION | VERIFICATION | TERMINATION => OwnersClosing(stage, f);
  }

  const IDENTITY := {RUN_ID, ORGANIZATION_ID, ACTOR_ID, REQUEST_ID, CORRELATION_ID, TRACE_ID, STARTED_AT, STATE_SCHEMA_VERSION}

  /** The fields an update may not set to None, those of the identity and of the route aside. */
  const NEVER_NONE := {EVIDENCE_REFERENCES, CITATION_REFERENCES, RISK_ALERT_REFERENCES, RECOMMENDATION_REFERENCES,
                       REQUIRES_HUMAN_APPROVAL, SIDE_EFFECT_ALLOWED, STATUS, STEP_COUNT}

  /** The fields whose contents must be the tenant's own, the risk assessment aside. */
  const OURS_ONLY := {EVIDENCE_BUNDLE, EVIDENCE_REFERENCES, CITATION_REFERENCES, RISK_ALERT_REFERENCES, RECOMMENDATION_REFERENCES,
                      SCENARIO_RESULT, SCENARIO_REFERENCE, SIMULATION_RESULT, SIMULATION_REFERENCE,
                      OPTIMIZATION_RESULT, OPTIMIZATION_REFERENCE, DECISION_RESULT, DECISION_REFERENCE,
                      APPROVAL_RESULT, APPROVAL_REFERENCE, ACTION_RESULT, ACTION_REFERENCE, VERIFICATION_REFERENCE}

  lemma IdentityTable(f: Field)
    ensures IsIdentity(f) <==> f in IDENTITY
    ensures IsId(f) <==> f in IDENTITY && f != STARTED_AT && f != STATE_SCHEMA_VERSION
  {
  }

  lemma RequiredTable(f: Field)
    ensures Required(f) <==> f in IDENTITY || f in NEVER_NONE || f == CURRENT_STAGE || f == ROUTE_HISTORY
  {
    IdentityTable(f);
    hide IsIdentity, IsId, Owners;
  }

  lemma ScopeTable(f: Field)
    ensures TenantScoped(f) <==> f in OURS_ONLY
  {
    hide Owners;
  }

  lemma TablesApart(f: Field)
    ensures f in OURS_ONLY || f in NEVER_NONE ==> f !in IDENTITY && f !in {CURRENT_NODE, CURRENT_STAGE, ROUTE_HISTORY}
    ensures f in IDENTITY ==> f !in {CURRENT_NODE, CURRENT_STAGE, ROUTE_HISTORY} && !IsAlias(f)
    ensures f in {CURRENT_NODE, CURRENT_STAGE, ROUTE_HISTORY} ==> !IsAlias(f)
  {
  }

  /** A field with the update laid over the state. */
  function Over(s: State, u: State, f: Field): Value {
    if f in u then u[f] else Get(s, f)
  }

  /** If the update names the organization, it is the state's own, apart from spaces around it. */
  predicate OrganizationKept(s: State, u: State) {
    ORGANIZATION_ID in u ==>
      var v := u[ORGANIZATION_ID];
      Get(s, ORGANIZATION_ID) == if v.Str? then Str(Strip(v.text)) else v
  }

  predicate IdentityKept(s: State, u: State) {
    forall f :: f in u && f in IDENTITY && f != ORGANIZATION_ID ==> u[f] == Get(s, f)
  }

  /** A field that some stage owns is written anew only by a stage that owns it, or to None. */
  ghost predicate WritesOwn(s: State, u: State, stage: Stage) {
    forall f, owner: Stage :: f in u && Writes(owner, f) && u[f] != Nothing && u[f] != Get(s, f) ==> Writes(stage, f)
  }

  /** The next node the update names: by `next_node`, or else by `selected_route`. */
  function Named(u: State): Value {
    if NEXT_NODE in u && Truthy(u[NEXT_NODE]) then u[NEXT_NODE] else if SELECTED_ROUTE in u then u[SELECTED_ROUTE] else Nothing
  }

  /** It names one, other than the node that wrote last. */
  predicate GoesOn(s: State, u: State) {
    Truthy(Named(u)) && Named(u) != Get(s, CURRENT_NODE)
  }

  predicate NothingMissing(s: State, u: State) {
    && (forall f :: f in u && f in NEVER_NONE ==> u[f] != Nothing)
    && (ROUTE_HISTORY in u && u[ROUTE_HISTORY] == Nothing ==> GoesOn(s, u))
  }

  /** What precedes the first colon is not the name of another organization. */
  ghost predicate OurRef(ref: string, org: string) {
    forall prefix, rest :: ref == prefix + ":" + rest && ':' !in prefix ==> prefix == org || !("org_" <= prefix)
  }

  ghost predicate Ours(v: Value, org: string) {
    match v
    case Bundle(_, owner, _) => owner == org
    case Risk(_, owner, _) => owner == org
    case Refs(refs) => forall r :: r in refs ==> OurRef(r, org)
    case Str(ref) => OurRef(ref, org)
    case Dict(fields) =>
      "organization_id" in fields && JsonTruthy(fields["organization_id"]) ==> fields["organization_id"] == TwinModel.JString(org)
    case _ => true
  }

  /** The assessment, or its reference if there is none. */
  function Assessment(s: State, u: State): Value {
    if Truthy(Over(s, u, RISK_ASSESSMENT_FIELD)) then Over(s, u, RISK_ASSESSMENT_FIELD) else Over(s, u, RISK_ASSESSMENT_REFERENCE)
  }

  ghost predicate AllOurs(s: State, u: State) {
    Ours(Assessment(s, u), TenantOf(s)) && forall f :: f in u && f in OURS_ONLY ==> Ours(u[f], TenantOf(s))
  }

  /** It would complete the run while approval is required. */
  predicate Bypasses(s: State, u: State) {
    Truthy(Over(s, u, REQUIRES_HUMAN_APPROVAL)) && Over(s, u, STATUS) == Lifecycle(COMPLETED)
  }

  // ----- the verdict

  lemma UpdateChecked(s: State, u: State, stage: Stage, screens: Screens)
    requires Sound(s)
    ensures ValidateUpdate(s, u, stage, screens)
            == if !screens.update(u) then Some(Screened)
               else if !OrganizationKept(s, u) then Some(CrossTenant)
               else if !IdentityKept(s, u) || !WritesOwn(s, u, stage) then Some(OwnershipViolation)
               else None
  {
    hide Owners, Sound, Strip, Truthy, IsIdentity, Writes;
    IdentityTable(ORGANIZATION_ID);
    SoundIdentity(s, ORGANIZATION_ID);
    forall f
      ensures IsIdentity(f) <==> f in IDENTITY
      ensures IsIdentity(f) ==> f in s && s[f] != Nothing
    {
      IdentityTable(f);
      if IsIdentity(f) {
        SoundIdentity(s, f);
      }
    }
    forall stage, f
      ensures stage in Owners(f) <==> Writes(stage, f)
    {
      OwnersWrite(stage, f);
    }
  }

  lemma RefsOurs(ref: string, org: string)
    ensures OurRef(ref, org) <==> !ForeignRef(ref, org)
  {
    hide Before;
    forall prefix, rest | ref == prefix + ":" + rest && ':' !in prefix
      ensures Before(ref, ':') == prefix && ':' in ref
    {
      BeforeFirst(prefix, ':', rest);
      assert ref[|prefix|] == ':';
    }
    if ':' in ref {
      SplitAt(ref, ':');
    }
  }

  lemma OursExactly(v: Value, org: string)
    ensures Ours(v, org) <==> !Foreign(v, org)
  {
    hide ForeignRef, OurRef, JsonTruthy;
    if v.Refs? {
      forall r | r in v.refs
        ensures OurRef(r, org) <==> !ForeignRef(r, org)
      {
        RefsOurs(r, org);
      }
    } else if v.Str? {
      RefsOurs(v.text, org);
    }
  }

  lemma NamedIsTarget(s: State, u: State)
    ensures Truthy(Named(u)) <==> Truthy(Target(u))
    ensures Truthy(Named(u)) ==> Named(u) == Target(u)
    ensures !Truthy(Target(u)) || Target(u).Str? ==> (Moves(s, u) <==> GoesOn(s, u))
  {
  }

  lemma MergedSets(s: State, w: Write, f: Field)
    requires f == CURRENT_NODE || f == CURRENT_STAGE || f == ROUTE_HISTORY
    ensures Get(Draft(s, w), f) == Get(Merged(s, w.updates, w.NodeId(), w.WriterStage()), f)
  {
    hide Merged, WithIdsStripped, Get, Stripped;
    StrippedAt(Merged(s, w.updates, w.NodeId(), w.WriterStage()), f);
  }

  /** The draft of a write, at the fields the writing itself sets. */
  lemma DraftSets(s: State, w: Write)
    ensures Get(Draft(s, w), CURRENT_NODE) == Str(w.NodeId()) && Get(Draft(s, w), CURRENT_STAGE) == InStage(w.WriterStage())
  {
    hide Merged, Overlaid, Draft, Get, Moves;
    MergedSets(s, w, CURRENT_NODE);
    MergedSets(s, w, CURRENT_STAGE);
    OverlaidAt(s, w.updates, w.NodeId(), w.WriterStage(), CURRENT_NODE);
    OverlaidAt(s, w.updates, w.NodeId(), w.WriterStage(), CURRENT_STAGE);
    MergedAt(s, w.updates, w.NodeId(), w.WriterStage(), CURRENT_NODE);
    MergedAt(s, w.updates, w.NodeId(), w.WriterStage(), CURRENT_STAGE);
  }

  /** The event that names where the writer says to go. */
  function Event(s: State, w: Write): RouteEvent
    requires Named(w.updates).Str?
  {
    RouteEvent(
      if w.node.Some? && w.node.value != "" then w.node.value else "unknown_node",
      Named(w.updates).text,
      if ROUTE_REASON in w.updates && w.updates[ROUTE_REASON].Str? && w.updates[ROUTE_REASON].text != "" then w.updates[ROUTE_REASON].text
      else "EXPLICIT_TRANSITION",
      if Over(s, w.updates, STEP_COUNT).Count? then Over(s, w.updates, STEP_COUNT).count else 0)
  }

  lemma DraftHistory(s: State, w: Write)
    requires Truthy(Named(w.updates)) ==> Named(w.updates).Str?
    ensures Get(Draft(s, w), ROUTE_HISTORY)
            == if GoesOn(s, w.updates)
               then History((if Get(s, ROUTE_HISTORY).History? then Get(s, ROUTE_HISTORY).events else []) + [Event(s, w)])
               else Over(s, w.updates, ROUTE_HISTORY)
  {
    hide Merged, Overlaid, Draft, Get, Moves, Truthy, GoesOn, Named, Target, EventOf, Event, HistoryOf;
    MergedSets(s, w, ROUTE_HISTORY);
    OverlaidAt(s, w.updates, w.NodeId(), w.WriterStage(), ROUTE_HISTORY);
    MergedAt(s, w.updates, w.NodeId(), w.WriterStage(), ROUTE_HISTORY);
    NamedIsTarget(s, w.updates);
    OldHistory(s, w.updates);
    if Truthy(Named(w.updates)) {
      EventAgrees(s, w);
    }
  }

  lemma OldHistory(s: State, u: State)
    ensures HistoryOf(s) == if Get(s, ROUTE_HISTORY).History? then Get(s, ROUTE_HISTORY).events else []
    ensures Over(s, u, ROUTE_HISTORY) == if ROUTE_HISTORY in u then u[ROUTE_HISTORY] else Get(s, ROUTE_HISTORY)
    ensures GoesOn(s, u) ==> Truthy(Named(u))
  {
  }

  lemma EventAgrees(s: State, w: Write)
    requires Truthy(Named(w.updates)) && Named(w.updates).Str? && Target(w.updates) == Named(w.updates)
    ensures EventOf(w.updates, w.NodeId(), Overlaid(s, w.updates, w.NodeId(), w.WriterStage())) == Event(s, w)
  {
    OverlaidAt(s, w.updates, w.NodeId(), w.WriterStage(), STEP_COUNT);
    hide Overlaid, Target, Named;
  }

  lemma DraftKeys(s: State, w: Write, f: Field)
    requires Full(s)
    ensures f in Draft(s, w) <==> f in s || f in w.updates
  {
  }

  /** The parts of an update that keep the identity. */
  predicate Keeps(s: State, u: State) {
    OrganizationKept(s, u) && IdentityKept(s, u)
  }

  lemma DraftIdentity(s: State, w: Write, f: Field)
    requires Sound(s) && Keeps(s, w.updates) && f in IDENTITY
    ensures f in Draft(s, w) && Draft(s, w)[f] == Get(s, f)
  {
    TablesApart(f);
    IdentityTable(f);
    IdentityTable(ORGANIZATION_ID);
    SoundIsFull(s);
    SoundIdentity(s, f);
    if IsId(f) {
      IdentityStripped(s, f);
    }
    DraftAt(s, w, f);
    DraftKeys(s, w, f);
    hide Sound, Draft, IsIdentity, IsId, Stripped, Truthy, IsAlias, Full, Owners, Required;
  }

  lemma DraftIds(s: State, w: Write)
    requires Sound(s) && Keeps(s, w.updates)
    ensures IdsPresent(Draft(s, w)) && TenantOf(Draft(s, w)) == TenantOf(s)
  {
    hide Sound, Draft, IsIdentity, IsId, Keeps;
    SoundIds(s);
    forall f | f in IDENTITY
      ensures f in Draft(s, w) && Draft(s, w)[f] == Get(s, f)
    {
      DraftIdentity(s, w, f);
    }
    forall f | IsId(f)
      ensures f in IDENTITY
    {
      IdentityTable(f);
    }
    assert ORGANIZATION_ID in IDENTITY;
  }

  lemma SoundIds(s: State)
    requires Sound(s)
    ensures IdsPresent(s) && forall f :: f in IDENTITY ==> f in s
  {
    hide Synchronized, Refusal, RequiredPresent, WithIdsStripped, IdsPresent;
  }

  /** What a required field of the draft needs of the update. */
  predicate FieldGiven(s: State, u: State, f: Field) {
    && (f in NEVER_NONE && f in u ==> u[f] != Nothing)
    && (f == ROUTE_HISTORY && f in u && u[f] == Nothing ==> GoesOn(s, u))
  }

  lemma DraftRequired(s: State, w: Write, f: Field)
    requires Sound(s) && Keeps(s, w.updates) && Required(f)
    requires Truthy(Named(w.updates)) ==> Named(w.updates).Str?
    ensures f in Draft(s, w) && (Draft(s, w)[f] != Nothing <==> FieldGiven(s, w.updates, f))
  {
    hide Sound, Draft, IsIdentity, IsId, Required, Stripped, Truthy, Named, GoesOn, Event, IsAlias, Full, Keeps, Owners;
    RequiredTable(f);
    TablesApart(f);
    SoundIsFull(s);
    RequiredNeverCleared(s, f);
    DraftKeys(s, w, f);
    if f in IDENTITY {
      DraftIdentity(s, w, f);
      SoundIds(s);
    } else if f in NEVER_NONE {
      DraftAt(s, w, f);
      IdentityTable(f);
    } else {
      DraftSets(s, w);
      DraftHistory(s, w);
    }
  }

  lemma NeededGiven(s: State, u: State)
    ensures NothingMissing(s, u) <==> forall f :: Required(f) ==> FieldGiven(s, u, f)
  {
    hide Required, GoesOn;
    forall f
      ensures f in NEVER_NONE || f == ROUTE_HISTORY ==> Required(f)
    {
      RequiredTable(f);
    }
    if forall f :: Required(f) ==> FieldGiven(s, u, f) {
      assert FieldGiven(s, u, ROUTE_HISTORY);
      assert forall f :: f in NEVER_NONE ==> FieldGiven(s, u, f);
    }
  }

  lemma DraftComplete(s: State, w: Write)
    requires Sound(s) && Keeps(s, w.updates)
    requires Truthy(Named(w.updates)) ==> Named(w.updates).Str?
    ensures RequiredPresent(Draft(s, w)) <==> NothingMissing(s, w.updates)
  {
    hide Sound, Draft, Required, Truthy, Named, NothingMissing, FieldGiven, Keeps;
    NeededGiven(s, w.updates);
    forall f | Required(f)
      ensures f in Draft(s, w) && (Draft(s, w)[f] != Nothing <==> FieldGiven(s, w.updates, f))
    {
      DraftRequired(s, w, f);
    }
  }

  // ----- whose contents

  lemma DraftScoped(s: State, w: Write, f: Field)
    requires f in OURS_ONLY && Full(s)
    ensures Get(Draft(s, w), f) == Over(s, w.updates, f) && (f in Draft(s, w) <==> f in s || f in w.updates)
  {
    hide Draft, Full, IsIdentity, Stripped, IsAlias;
    TablesApart(f);
    IdentityTable(f);
    DraftAt(s, w, f);
    DraftKeys(s, w, f);
  }

  lemma DraftRisk(s: State, w: Write)
    ensures ActiveRisk(Draft(s, w)) == Assessment(s, w.updates)
  {
    hide Draft, Truthy, Stripped;
    DraftAt(s, w, RISK_ASSESSMENT_FIELD);
    DraftAt(s, w, RISK_ASSESSMENT_REFERENCE);
    RiskIsThere(Draft(s, w));
  }

  lemma SoundBindings(s: State)
    requires Sound(s)
    ensures Full(s) && BindingsClean(s, TenantOf(s))
  {
    hide Full, Synchronized, RequiredPresent, WithIdsStripped, IdsPresent, BindingsClean, Foreign, ActiveRisk;
  }

  lemma DraftBindings(s: State, w: Write)
    requires Sound(s)
    ensures BindingsClean(Draft(s, w), TenantOf(s)) <==> forall f :: f in w.updates && f in OURS_ONLY ==> Ours(w.updates[f], TenantOf(s))
  {
    hide Draft, Foreign, TenantScoped, Ours, Sound, Full, TenantOf;
    SoundBindings(s);
    forall f
      ensures TenantScoped(f) <==> f in OURS_ONLY
      ensures f in OURS_ONLY ==> Get(Draft(s, w), f) == Over(s, w.updates, f) && (f in Draft(s, w) <==> f in s || f in w.updates)
    {
      ScopeTable(f);
      if f in OURS_ONLY {
        DraftScoped(s, w, f);
      }
    }
    forall f | f in w.updates
      ensures Ours(w.updates[f], TenantOf(s)) <==> !Foreign(w.updates[f], TenantOf(s))
    {
      OursExactly(w.updates[f], TenantOf(s));
    }
  }

  lemma DraftCompletes(s: State, w: Write)
    ensures CompletedUnapproved(Draft(s, w)) <==> Bypasses(s, w.updates)
  {
    hide Draft, Truthy, Stripped;
    DraftAt(s, w, REQUIRES_HUMAN_APPROVAL);
    DraftAt(s, w, STATUS);
  }

  lemma DraftRefused(s: State, w: Write)
    requires Sound(s) && TenantOf(Draft(s, w)) == TenantOf(s)
    ensures Refusal(Draft(s, w))
            == if !AllOurs(s, w.updates) then Some(CrossTenant) else if Bypasses(s, w.updates) then Some(ApprovalBoundary) else None
  {
    hide Draft, Foreign, Ours, Sound, TenantOf, BindingsClean, CompletedUnapproved, Bypasses, ActiveRisk, Assessment;
    DraftBindings(s, w);
    DraftRisk(s, w);
    DraftCompletes(s, w);
    OursExactly(Assessment(s, w.updates), TenantOf(s));
  }

  // ----- the outcome

  /** What an alias stands for. */
  function StandsFor(s: State, u: State, f: Field): Value {
    match f
    case EVIDENCE_BUNDLE_ID => if Over(s, u, EVIDENCE_BUNDLE).Bundle? then Str(Over(s, u, EVIDENCE_BUNDLE).bundleId) else Nothing
    case RISK_ASSESSMENT_FIELD => Assessment(s, u)
    case RISK_ASSESSMENT_REFERENCE => Assessment(s, u)
    case RISK_ASSESSMENT_ID => if Assessment(s, u).Risk? then Str(Assessment(s, u).assessmentId) else Nothing
    case NEXT_NODE => Over(s, u, SELECTED_ROUTE)
    case SELECTED_ROUTE => Over(s, u, NEXT_NODE)
    case _ => Nothing
  }

  /** A field after an accepted write: what is laid over it, or, for an alias that this leaves empty,
      what it stands for. */
  function Settled(s: State, u: State, f: Field): Value {
    if !Truthy(Over(s, u, f)) && Truthy(StandsFor(s, u, f)) then StandsFor(s, u, f) else Over(s, u, f)
  }

  /** The state an accepted write leaves, field by field. */
  ghost predicate Leaves(s: State, w: Write, s': State) {
    && Get(s', CURRENT_NODE) == Str(if w.node.Some? && w.node.value != "" then w.node.value else "unknown_node")
    && Get(s', CURRENT_STAGE) == InStage(if w.stage.Some? then w.stage.value else INITIALIZATION)
    && (if GoesOn(s, w.updates) && Named(w.updates).Str?
        then Get(s', ROUTE_HISTORY) == History((if Get(s, ROUTE_HISTORY).History? then Get(s, ROUTE_HISTORY).events else []) + [Event(s, w)])
        else Get(s', ROUTE_HISTORY) == Over(s, w.updates, ROUTE_HISTORY))
    && (forall f :: f in IDENTITY ==> Get(s', f) == Get(s, f))
    && (forall f :: f !in IDENTITY && f !in {CURRENT_NODE, CURRENT_STAGE, ROUTE_HISTORY} ==> Get(s', f) == Settled(s, w.updates, f))
  }

  lemma SourceAt(s: State, w: Write, f: Field)
    requires !Truthy(Over(s, w.updates, f))
    ensures Truthy(Source(Draft(s, w), f)) <==> Truthy(StandsFor(s, w.updates, f))
    ensures Truthy(StandsFor(s, w.updates, f)) ==> Source(Draft(s, w), f) == StandsFor(s, w.updates, f)
  {
    hide Draft, Stripped, ActiveRisk, Assessment;
    DraftAt(s, w, EVIDENCE_BUNDLE);
    DraftAt(s, w, NEXT_NODE);
    DraftAt(s, w, SELECTED_ROUTE);
    DraftRisk(s, w);
  }

  lemma StandsForAlias(s: State, u: State, f: Field)
    ensures Truthy(StandsFor(s, u, f)) ==> !f.Plain?
  {
  }

  lemma SettledAt(s: State, w: Write, f: Field)
    requires Full(s) && f !in IDENTITY && f !in {CURRENT_NODE, CURRENT_STAGE, ROUTE_HISTORY}
    ensures Get(Synchronized(Draft(s, w)), f) == Settled(s, w.updates, f)
  {
    hide Draft, Synchronized, Truthy, Stripped, Source, StandsFor, IsIdentity;
    IdentityTable(f);
    DraftAt(s, w, f);
    DraftKeys(s, w, f);
    SynchronizedAt(Draft(s, w), f);
    StandsForAlias(s, w.updates, f);
    if !Truthy(Over(s, w.updates, f)) {
      SourceAt(s, w, f);
    }
  }

  lemma SynchronizedKeeps(s: State, w: Write)
    ensures forall f :: f in IDENTITY || f in {CURRENT_NODE, CURRENT_STAGE, ROUTE_HISTORY} ==>
                          Get(Synchronized(Draft(s, w)), f) == Get(Draft(s, w), f)
  {
    hide Draft, Synchronized, IsAlias;
    SynchronizedElsewhere(Draft(s, w));
    forall f | f in IDENTITY || f in {CURRENT_NODE, CURRENT_STAGE, ROUTE_HISTORY}
      ensures !IsAlias(f)
    {
      TablesApart(f);
    }
  }

  lemma DraftLeaves(s: State, w: Write)
    requires Sound(s) && Keeps(s, w.updates) && (Truthy(Named(w.updates)) ==> Named(w.updates).Str?)
    ensures Leaves(s, w, Synchronized(Draft(s, w)))
  {
    hide Sound, Draft, Synchronized, Keeps, Settled, Event, Truthy, Named, GoesOn;
    SoundIsFull(s);
    SynchronizedKeeps(s, w);
    DraftSets(s, w);
    DraftHistory(s, w);
    GoingNames(s, w.updates);
    forall f | f in IDENTITY
      ensures Get(Draft(s, w), f) == Get(s, f)
    {
      DraftIdentity(s, w, f);
    }
    forall f | f !in IDENTITY && f !in {CURRENT_NODE, CURRENT_STAGE, ROUTE_HISTORY}
      ensures Get(Synchronized(Draft(s, w)), f) == Settled(s, w.updates, f)
    {
      SettledAt(s, w, f);
    }
  }

  lemma GoingNames(s: State, u: State)
    ensures GoesOn(s, u) ==> Truthy(Named(u))
  {
  }

  lemma IdentityAtDraft(s: State, w: Write)
    requires Sound(s)
    ensures WithIdsStripped(Merged(s, w.updates, w.NodeId(), w.WriterStage())) == Draft(s, w)
  {
  }

  /** What becomes of any write to a sound state: the first rule it breaks, or the state it leaves. */
  lemma AppliedExactly(s: State, w: Write, screens: Screens)
    requires Sound(s)
    ensures var (u, r, stage) := (w.updates, Applied(s, w, screens), if w.stage.Some? then w.stage.value else INITIALIZATION);
            if !screens.update(u) then r == Err(Screened)
            else if !OrganizationKept(s, u) then r == Err(CrossTenant)
            else if !IdentityKept(s, u) || !WritesOwn(s, u, stage) then r == Err(OwnershipViolation)
            else if Truthy(Named(u)) && !Named(u).Str? then r == Err(Invalid)
            else if !NothingMissing(s, u) || !screens.state(Draft(s, w)) then r == Err(Invalid)
            else if !AllOurs(s, u) then r == Err(CrossTenant)
            else if Bypasses(s, u) then r == Err(ApprovalBoundary)
            else r.Ok? && Leaves(s, w, r.value)
  {
    hide Sound, Draft, Merged, Synchronized, ValidateUpdate, OrganizationKept, IdentityKept, WritesOwn, Truthy, Named, NothingMissing,
         AllOurs, Bypasses, Leaves, IdsPresent, RequiredPresent, Refusal, Target, WithIdsStripped;
    UpdateChecked(s, w.updates, w.WriterStage(), screens);
    NamedIsTarget(s, w.updates);
    IdentityAtDraft(s, w);
    if OrganizationKept(s, w.updates) && IdentityKept(s, w.updates) {
      if Truthy(Named(w.updates)) ==> Named(w.updates).Str? {
        DraftIds(s, w);
        DraftComplete(s, w);
        DraftRefused(s, w);
        DraftLeaves(s, w);
      }
    }
  }

  /** In particular no other stage writes anything new to a field that some stage owns. */
  lemma OwnersOnly(s: State, w: Write, screens: Screens, f: Field, owner: Stage)
    requires Sound(s) && Writes(owner, f) && !Writes(w.WriterStage(), f)
    requires f in w.updates && w.updates[f] != Nothing && w.updates[f] != Get(s, f)
    ensures Applied(s, w, screens).Err?
  {
    hide Sound, Writes;
    AppliedExactly(s, w, screens);
  }

  /** A stage's write of its own fields, if it passes the screens and the tenant checks, is accepted,
      and the new state holds what was written. */
  lemma OwnersAccepted(s: State, w: Write, screens: Screens)
    requires Sound(s) && forall f :: f in w.updates ==> Writes(w.WriterStage(), f) && w.updates[f] != Nothing
    requires screens.update(w.updates) && screens.state(Draft(s, w)) && AllOurs(s, w.updates) && !Bypasses(s, w.updates)
    ensures Applied(s, w, screens).Ok?
    ensures forall f :: f in w.updates && (!IsAlias(f) || Truthy(w.updates[f])) ==> Get(Applied(s, w, screens).value, f) == w.updates[f]
  {
    hide Sound, Draft, AllOurs, Bypasses, Truthy, Applied, Named, GoesOn, Settled, IsAlias, Event, Writes;
    forall f | f in w.updates
      ensures f !in IDENTITY && f !in {CURRENT_NODE, CURRENT_STAGE, ROUTE_HISTORY, NEXT_NODE, SELECTED_ROUTE, STATUS}
    {
      OwnedApart(w.WriterStage(), f);
    }
    NamesNone(w.updates);
    AppliedExactly(s, w, screens);
    forall f | f in w.updates && (!IsAlias(f) || Truthy(w.updates[f]))
      ensures Settled(s, w.updates, f) == w.updates[f]
    {
      SettledAsWritten(s, w.updates, f);
    }
  }

  lemma NamesNone(u: State)
    requires NEXT_NODE !in u && SELECTED_ROUTE !in u
    ensures !Truthy(Named(u))
  {
  }

  lemma SettledAsWritten(s: State, u: State, f: Field)
    requires !IsAlias(f) || Truthy(Over(s, u, f))
    ensures Settled(s, u, f) == Over(s, u, f)
  {
    assert !Truthy(Nothing);
  }

  lemma OwnedApart(stage: Stage, f: Field)
    requires Writes(stage, f)
    ensures f !in IDENTITY && f !in {CURRENT_NODE, CURRENT_STAGE, ROUTE_HISTORY, NEXT_NODE, SELECTED_ROUTE, STATUS}
  {
  }
}
