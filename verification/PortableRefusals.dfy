/** Why the calls of the portable protocol are refused (services/portable.py, api/portable.py): each error a
    caller may see stands for something wrong with the call or with what is on record. */
module PortableRefusals {

  import opened Common
  import opened PortableRecords
  import opened PortableEvaluate
  import Outcomes = PortableOutcomes
  import opened PortableSteps
  import opened PortableProtocol
  import opened PortableRuns
  import opened PortableEffects

  /** The system is not there, or in a place the integration does not see. */
  predicate Unseen(db: Db, principal: Id, system: Id) {
    || !IsIntegration(db, principal) || !IsSystem(db, system)
    || db.records[system].place != db.records[principal].place
  }

  /** 404: something the call names does not exist, lies elsewhere, or belongs to someone else. */
  ghost predicate Missing(db: Db, call: Call) {
    match call
    case CallRevoke(id, _) => !IsIntegration(db, id)
    case CallRotate(id, _) => !IsIntegration(db, id)
    case CallSubmitSystem(principal, _, _, _, _, _, _) => !IsIntegration(db, principal)
    case CallSubmitRevision(principal, _, system, _) => Unseen(db, principal, system)
    case CallSubmitRevisionByHuman(_, _, principal, _, system, _) => Unseen(db, principal, system)
    case CallSubmitObservation(principal, _, system, _, _, _, _, _, _, _, _) => Unseen(db, principal, system)
    case CallDraftPolicy(_, _, _, system, policy) =>
      || !IsSystem(db, system)
      || exists s <- policy.trustedSources :: !IsIntegration(db, s) || db.records[s].place != db.records[system].place
    case CallDecide(_, _, _, target, _, _) =>
      || target !in db.records
      || var r := db.records[target];
         || (r.body.Revision? && (IsIntegration(db, r.integration) ==>
               !Outcomes.Exists(db, r.integration, Request(target, Release, None))))
         || (r.body.RuntimePolicy?
             && exists s <- r.body.policy.trustedSources :: !IsIntegration(db, s) || db.records[s].place != r.place)
    case CallIssue(principal, _, _, request) =>
      IsIntegration(db, principal) ==> !Outcomes.Exists(db, principal, request)
    case CallConsume(principal, token, request) =>
      || !IsIntegration(db, principal) || token !in db.permits
      || var grant := db.permits[token].grant;
         || grant !in db.records || !db.records[grant].body.Authorization? || db.records[grant].integration != principal
         || !Outcomes.Exists(db, principal, request)
    case CallRecordReceipt(principal, _, authorization, _, _) =>
      !IsIntegration(db, principal) || authorization !in db.records || !db.records[authorization].body.Authorization?
    case CallVerifyReceipt(principal, _, receipt, observation) =>
      || !IsIntegration(db, principal)
      || receipt !in db.records || !db.records[receipt].body.Receipt?
      || db.records[receipt].place != db.records[principal].place
      || observation !in db.records || !db.records[observation].body.Observation?
    case _ => false
  }

  /** The machine may not write at all. */
  predicate Silenced(db: Db, principal: Id, w: World) {
    && IsIntegration(db, principal)
    && (!db.records[principal].audited || db.records[principal].state != Active || !w.organizationActive)
  }

  /** The integration lacks a scope it needs, or the system is another's. */
  predicate Overreaches(db: Db, principal: Id, system: Id, scopes: set<AccessScope>, owner: bool) {
    && IsIntegration(db, principal)
    && (!(scopes <= db.records[principal].body.scopes)
        || (owner && IsSystem(db, system) && db.records[system].integration != principal))
  }

  /** 403: the caller lacks the right. */
  predicate Lacking(db: Db, call: Call, w: World) {
    match call
    case CallCreateIntegration(_, _, permitted, _, _, _) => !permitted
    case CallRevoke(_, permitted) => !permitted
    case CallRotate(_, permitted) => !permitted
    case CallSubmitSystem(principal, _, _, _, _, _, _) =>
      Silenced(db, principal, w) || Overreaches(db, principal, NOBODY, {SystemsWrite}, false)
    case CallSubmitRevision(principal, _, system, _) =>
      Silenced(db, principal, w) || Overreaches(db, principal, system, {SystemsRead, RevisionsWrite}, true)
    case CallSubmitRevisionByHuman(_, permitted, principal, _, system, _) =>
      !permitted || Overreaches(db, principal, system, {SystemsRead, RevisionsWrite}, true)
    case CallSubmitObservation(principal, _, system, _, _, _, _, _, _, _, _) =>
      Silenced(db, principal, w) || Overreaches(db, principal, system, {SystemsRead, ObservationsWrite}, false)
    case CallDraftPolicy(_, permitted, _, system, policy) =>
      !permitted || exists s <- policy.trustedSources :: Overreaches(db, s, system, {ObservationsWrite}, false)
    case CallDecide(actor, permitted, _, target, _, _) =>
      || !permitted
      || (target in db.records
          && var r := db.records[target];
             || r.createdBy == Human(actor)
             || (r.body.Revision? && Overreaches(db, r.integration, r.body.system, {SystemsRead}, true))
             || (r.body.RuntimePolicy?
                 && exists s <- r.body.policy.trustedSources :: Overreaches(db, s, target, {ObservationsWrite}, false)))
    case CallIssue(principal, _, _, request) =>
      || Silenced(db, principal, w)
      || Overreaches(db, principal, if IsRevision(db, request.revision) then db.records[request.revision].body.system
                                    else NOBODY, {SystemsRead, AuthorizationsRequest}, true)
    case CallConsume(principal, _, request) =>
      || Silenced(db, principal, w)
      || Overreaches(db, principal, if IsRevision(db, request.revision) then db.records[request.revision].body.system
                                    else NOBODY, {SystemsRead, AuthorizationsRequest}, true)
    case CallRecordReceipt(principal, _, _, _, _) =>
      Silenced(db, principal, w) || Overreaches(db, principal, NOBODY, {ReceiptsWrite}, false)
    case CallVerifyReceipt(principal, _, receipt, observation) =>
      || Silenced(db, principal, w) || Overreaches(db, principal, NOBODY, {ObservationsWrite}, false)
      || (receipt in db.records && db.records[receipt].integration == principal)
      || (observation in db.records && db.records[observation].integration != principal)
      || Distrusted(db, principal, receipt)
    case _ => false
  }

  /** The policy that authorized the action does not trust the observer. */
  predicate Distrusted(db: Db, principal: Id, receipt: Id) {
    && receipt in db.records && db.records[receipt].body.Receipt?
    && db.records[receipt].body.authorization in db.records
    && var grant := db.records[db.records[receipt].body.authorization].body;
    && grant.Authorization? && grant.policyId.Some? && grant.policyId.value in db.records
    && var policy := db.records[grant.policyId.value].body;
    policy.RuntimePolicy? && principal !in policy.policy.trustedSources
  }

  /** 422: the call contradicts itself. */
  predicate Malformed(db: Db, call: Call, w: World) {
    match call
    case CallCreateIntegration(_, _, _, _, scopes, capabilities) =>
      || SystemsRead !in scopes
      || exists i, j :: 0 <= i < j < |capabilities| && capabilities[i].name == capabilities[j].name
    case CallSubmitObservation(_, _, _, _, _, _, observedAt, _, _, _, _) => observedAt > w.now
    case CallDecide(_, _, _, target, decision, _) =>
      && target in db.records
      && (match decision
          case ApproveRevision => !db.records[target].body.Revision?
          case ActivatePolicy => !db.records[target].body.RuntimePolicy?
          case _ => !db.records[target].body.System?)
    case CallIssue(_, _, _, request) => request.action.Some? <==> request.purpose == Release
    case CallConsume(_, _, request) => request.action.Some? <==> request.purpose == Release
    case _ => false
  }

  predicate IsAsleep(db: Db, source: Id) {
    IsIntegration(db, source) && (!db.records[source].audited || db.records[source].state != Active)
  }

  predicate OnFile(db: Db, principal: Id, key: ExternalKey, body: Body) {
    var filed := Filed(db, principal, key);
    filed.Some? && db.records[filed.value].body != body
  }

  /** 409: what is on record stands against the call. */
  ghost predicate Clashing(db: Db, call: Call, w: World) {
    match call
    case CallRotate(id, _) => IsIntegration(db, id) && db.records[id].state != Active
    case CallSubmitRevision(principal, _, system, manifest) => Closed(db, principal, system, manifest)
    case CallSubmitRevisionByHuman(_, _, principal, _, system, manifest) =>
      (IsIntegration(db, principal) && db.records[principal].state != Active) || Closed(db, principal, system, manifest)
    case CallSubmitObservation(principal, _, system, name, check, result, observedAt, digest, evidenceRef,
                               actionDigest, resource) =>
      OnFile(db, principal, ObservationKey(system, name),
             Observation(system, name, check, result, observedAt, digest, evidenceRef, actionDigest, resource))
    case CallDraftPolicy(_, _, _, system, policy) => exists s <- policy.trustedSources :: IsAsleep(db, s)
    case CallDecide(actor, _, _, target, decision, expected) =>
      && target in db.records
      && var r := db.records[target];
      || r.body != expected
      || (decision == ApproveSystem && r.body.System? && r.body.purpose == "")
      || r.state !in {Planned, PendingReview, Draft, Approved} || (r.state == Approved && decision != RetireSystem)
      || (r.body.Revision? && !Reviewable(db, target, w))
      || (r.body.RuntimePolicy? && exists s <- r.body.policy.trustedSources :: IsAsleep(db, s))
    case CallConsume(principal, token, request) =>
      && token in db.permits && db.permits[token].grant in db.records && IsIntegration(db, principal)
      && var permit, grant := db.permits[token], db.records[db.permits[token].grant];
      || !grant.audited || permit.consumedAt.Some? || permit.expiresAt <= w.now
      || (grant.body.Authorization? && grant.body.request != request)
      || !Outcomes.Permits(db, principal, request, w)
      || (grant.body.Authorization? && Outcomes.PolicyOf(db, request) != grant.body.policyId)
    case CallRecordReceipt(principal, _, authorization, executed, evidenceRef) =>
      && authorization in db.records
      && var grant := db.records[authorization];
      || grant.integration != principal || grant.state != Consumed || !grant.audited
      || var filed := FiledReceipt(db, authorization);
         filed.Some? && !(db.records[filed.value].body.authorization == authorization
                          && db.records[filed.value].body.executed == executed
                          && db.records[filed.value].body.evidenceRef == evidenceRef)
    case CallVerifyReceipt(_, _, receipt, observation) =>
      || (receipt in db.records
          && (!db.records[receipt].audited || db.records[receipt].state != VerificationPending))
      || (observation in db.records && !db.records[observation].audited)
      || OffTheMark(db, receipt, observation, w)
    case CallAnchor(id, seen) =>
      || TrailEntry(id, seen.state, seen.body, seen.decisionId) !in db.trail || id !in db.records
      || db.records[id].state != seen.state || db.records[id].body != seen.body
      || db.records[id].decisionId != seen.decisionId || db.records[id].updatedAt != seen.updatedAt
    case _ => false
  }

  /** The system is retired, or the revision's name is taken by another manifest. */
  predicate Closed(db: Db, principal: Id, system: Id, manifest: Manifest) {
    || (IsSystem(db, system) && db.records[system].state == Retired)
    || OnFile(db, principal, RevisionKey(system, manifest.revision), Revision(system, manifest))
  }

  /** The observation is not of the outcome of the very action, or not of a time at which it counts. */
  predicate OffTheMark(db: Db, receipt: Id, observation: Id, w: World) {
    && receipt in db.records && db.records[receipt].body.Receipt?
    && observation in db.records && db.records[observation].body.Observation?
    && var r, o := db.records[receipt].body, db.records[observation].body;
    && r.authorization in db.records && db.records[r.authorization].body.Authorization?
    && var grant, executor := db.records[r.authorization].body, db.records[receipt].integration;
    && grant.policyId.Some? && grant.policyId.value in db.records && db.records[grant.policyId.value].body.RuntimePolicy?
    && IsIntegration(db, executor)
    && (grant.request.action.Some? ==>
          && var action := grant.request.action.value;
          && var c := FirstCapability(db.records[executor].body.capabilities, action.capability);
          || c == None || o.check != c.value.verificationCheck || o.system != r.system
          || o.revisionDigest != grant.manifestDigest || o.actionDigest != Some(OfRequest(grant.request))
          || o.resource != Some(action.resource) || o.observedAt < r.verificationAfter
          || w.now > o.observedAt + db.records[grant.policyId.value].body.policy.evidenceMaxAge)
  }

  /** The error stands for what is wrong. */
  ghost predicate Explains(db: Db, call: Call, w: World, error: Error) {
    match error
    case NotFound => Missing(db, call)
    case Forbidden => Lacking(db, call, w)
    case Unprocessable => Malformed(db, call, w)
    case Conflict => Clashing(db, call, w)
    case Crash => false
  }

  // ----- each call -----

  /** Why a source is refused, if any is. */
  lemma {:induction false} UntrustedBecause(db: Db, sources: seq<Id>, target: Id)
    requires target in db.records
    ensures match UntrustedSource(db, sources, target)
            case None => true
            case Some(NotFound) =>
              exists s <- sources :: !IsIntegration(db, s) || db.records[s].place != db.records[target].place
            case Some(Forbidden) => exists s <- sources :: Overreaches(db, s, target, {ObservationsWrite}, false)
            case Some(Conflict) => exists s <- sources :: IsAsleep(db, s)
            case Some(_) => false
  {
    if sources != [] {
      var s := sources[0];
      assert s in sources && forall x <- sources[1..] :: x in sources;
      if UntrustedSource(db, sources, target) == UntrustedSource(db, sources[1..], target) {
        UntrustedBecause(db, sources[1..], target);
      }
    }
  }

  lemma ReviewBecause(db: Db, revision: Id, w: World)
    requires Sound(db) && IsRevision(db, revision)
    ensures var executor, release := db.records[revision].integration, Request(revision, Release, None);
      match ReviewFault(db, revision, w)
      case None => true
      case Some(NotFound) => IsIntegration(db, executor) ==> !Outcomes.Exists(db, executor, release)
      case Some(Forbidden) =>
        Overreaches(db, executor, db.records[revision].body.system, {SystemsRead}, true)
      case Some(Conflict) => !Reviewable(db, revision, w)
      case Some(_) => false
  {
    hide Evaluate, Outcomes.Permits, Outcomes.Denies, Outcomes.AsksForReview, Outcomes.CannotTell, Outcomes.Grounds,
         Outcomes.InBounds, Sound;
    var executor, release := db.records[revision].integration, Request(revision, Release, None);
    ReviewableExactly(db, revision, w);
    if IsIntegration(db, executor) { Outcomes.OutcomesAreExact(db, executor, release, w); }
  }

  lemma EvaluatedBecause(db: Db, principal: Id, request: Request, w: World)
    requires IsIntegration(db, principal)
    ensures match Evaluate(db, principal, request, w)
            case Done(verdict) => (verdict.outcome == Allow <==> Outcomes.Permits(db, principal, request, w))
                                  && verdict.policyId == Outcomes.PolicyOf(db, request)
            case Refused(NotFound) => !Outcomes.Exists(db, principal, request)
            case Refused(Forbidden) =>
              IsRevision(db, request.revision)
              && Overreaches(db, principal, db.records[request.revision].body.system, {SystemsRead}, true)
            case Refused(Unprocessable) => request.action.Some? <==> request.purpose == Release
            case Refused(_) => false
  {
    hide Evaluate, Outcomes.Permits, Outcomes.Denies, Outcomes.AsksForReview, Outcomes.CannotTell, Outcomes.InBounds,
         Outcomes.PolicyOf, Outcomes.Examined, Outcomes.AllPass, Outcomes.OwesLegacyWork;
    Outcomes.OutcomesAreExact(db, principal, request, w);
    if Evaluate(db, principal, request, w).Done? { Outcomes.VerdictNamesItsGrounds(db, principal, request, w); }
  }

  lemma InsertOnlyCrashes(db: Db, id: Id, record: Record)
    ensures TryInsert(db, id, record).Refused? ==> TryInsert(db, id, record).error == Crash
  {
  }

  lemma SourcesExplain(db: Db, target: Id, call: Call, w: World)
    requires call.CallDecide? && call.target == target && target in db.records && db.records[target].body.RuntimePolicy?
    ensures var fault := UntrustedSource(db, db.records[target].body.policy.trustedSources, target);
      fault.Some? ==> Explains(db, call, w, fault.value)
  {
    hide UntrustedSource, Overreaches, IsAsleep, Reviewable;
    UntrustedBecause(db, db.records[target].body.policy.trustedSources, target);
  }

  lemma ReviewExplains(db: Db, target: Id, call: Call, w: World)
    requires Sound(db) && call.CallDecide? && call.target == target && IsRevision(db, target)
    ensures ReviewFault(db, target, w).Some? ==> Explains(db, call, w, ReviewFault(db, target, w).value)
  {
    hide Sound, ReviewFault, Reviewable, Overreaches, IsAsleep, Outcomes.Exists;
    ReviewBecause(db, target, w);
  }

  /** The states a record of each kind that is decided about may be in. */
  lemma DecidableStates(db: Db, target: Id)
    requires Sound(db) && target in db.records
    ensures var r := db.records[target];
      && (r.body.System? ==> r.state in {Planned, Approved, Retired})
      && (r.body.Revision? ==> r.state in {PendingReview, Approved})
      && (r.body.RuntimePolicy? ==> r.state in {Draft, Active, Superseded})
  {
    hide Sound, RecordsOk;
    SoundParts(db);
    RecordAt(db, target);
  }

  lemma DecisionBecause(db: Db, actor: string, permitted: bool, id: Id, target: Id, decision: DecisionKind,
                        expected: Body, w: World)
    requires Sound(db)
    ensures var fault := DecisionFault(db, actor, permitted, target, decision, expected, w);
      fault.Some? ==> Explains(db, CallDecide(actor, permitted, id, target, decision, expected), w, fault.value)
  {
    hide Sound, ReviewFault, Reviewable, UntrustedSource, Overreaches, IsAsleep, Outcomes.Exists;
    var call := CallDecide(actor, permitted, id, target, decision, expected);
    if target in db.records {
      DecidableStates(db, target);
      if IsRevision(db, target) { ReviewExplains(db, target, call, w); }
      if db.records[target].body.RuntimePolicy? { SourcesExplain(db, target, call, w); }
    }
  }

  lemma DecideBecause(db: Db, actor: string, permitted: bool, id: Id, target: Id, decision: DecisionKind,
                      expected: Body, w: World)
    requires Sound(db)
    ensures var answer := Decide(db, actor, permitted, id, target, decision, expected, w);
      answer.Refused? && answer.error != Crash ==>
        Explains(db, CallDecide(actor, permitted, id, target, decision, expected), w, answer.error)
  {
    hide Sound, DecisionFault, Explains, Supersede, SetState, TryInsert, Priors;
    DecisionBecause(db, actor, permitted, id, target, decision, expected, w);
    if DecisionFault(db, actor, permitted, target, decision, expected, w) == None {
      DecidesSomething(db, actor, permitted, target, decision, expected, w);
      var r := db.records[target];
      InsertOnlyCrashes(Supersede(db, Priors(db, target), w.now), id,
                        NewRecord(r.place, NOBODY, Fresh(id), Recorded,
                                  Decision(SystemOf(r.body, target), target, decision, r.body), Human(actor), w.now));
    }
  }

  lemma DraftBecause(db: Db, actor: string, permitted: bool, id: Id, system: Id, policy: Policy, w: World)
    ensures var answer := DraftPolicy(db, actor, permitted, id, system, policy, w);
      answer.Refused? && answer.error != Crash ==>
        Explains(db, CallDraftPolicy(actor, permitted, id, system, policy), w, answer.error)
  {
    hide UntrustedSource, Overreaches, IsAsleep;
    if IsSystem(db, system) { UntrustedBecause(db, policy.trustedSources, system); }
  }

  lemma ReviseBecause(db: Db, principal: Id, id: Id, system: Id, manifest: Manifest, author: Actor, w: World)
    requires IsIntegration(db, principal)
    ensures match SubmitRevision(db, principal, id, system, manifest, author, w)
            case Done(_) => true
            case Refused(NotFound) => Unseen(db, principal, system)
            case Refused(Forbidden) => Overreaches(db, principal, system, {SystemsRead, RevisionsWrite}, true)
            case Refused(Conflict) => Closed(db, principal, system, manifest)
            case Refused(error) => error == Crash
  {
  }

  lemma ObserveBecause(db: Db, principal: Id, id: Id, o: Body, w: World)
    requires o.Observation?
    ensures match SubmitObservation(db, principal, id, o, w)
            case Done(_) => true
            case Refused(NotFound) => Unseen(db, principal, o.system)
            case Refused(Forbidden) =>
              Silenced(db, principal, w)
              || Overreaches(db, principal, o.system, {SystemsRead, ObservationsWrite}, false)
            case Refused(Unprocessable) => o.observedAt > w.now
            case Refused(Conflict) => OnFile(db, principal, ObservationKey(o.system, o.name), o)
            case Refused(Crash) => true
  {
  }

  lemma IssueBecause(db: Db, principal: Id, id: Id, token: string, request: Request, w: World)
    ensures var answer := Issue(db, principal, id, token, request, w);
      answer.Refused? && answer.error != Crash ==>
        Explains(db, CallIssue(principal, id, token, request), w, answer.error)
  {
    hide Evaluate, Outcomes.Permits, Outcomes.PolicyOf, Outcomes.Exists;
    if IsIntegration(db, principal) {
      EvaluatedBecause(db, principal, request, w);
      if Allows(Evaluate(db, principal, request, w)) { AllowNamesPolicy(db, principal, request, w); }
    }
  }

  lemma ConsumeBecause(db: Db, principal: Id, token: string, request: Request, w: World)
    ensures var answer := Consume(db, principal, token, request, w);
      answer.Refused? && answer.error != Crash ==> Explains(db, CallConsume(principal, token, request), w, answer.error)
  {
    hide Evaluate, Outcomes.Permits, Outcomes.PolicyOf, Outcomes.Exists;
    if IsIntegration(db, principal) { EvaluatedBecause(db, principal, request, w); }
  }

  lemma ReportBecause(db: Db, principal: Id, id: Id, authorization: Id, executed: bool, evidenceRef: string, w: World)
    ensures var answer := RecordReceipt(db, principal, id, authorization, executed, evidenceRef, w);
      answer.Refused? && answer.error != Crash ==>
        Explains(db, CallRecordReceipt(principal, id, authorization, executed, evidenceRef), w, answer.error)
  {
  }

  /** In a sound store the grant, its policy and its executor are there for every receipt. */
  lemma ReceiptStandsOnRecord(db: Db, receipt: Id)
    requires Sound(db) && receipt in db.records && db.records[receipt].body.Receipt?
    ensures db.records[receipt].body.authorization in db.records && IsIntegration(db, db.records[receipt].integration)
    ensures var grant := db.records[db.records[receipt].body.authorization].body;
      && grant.Authorization? && grant.policyId.Some? && grant.policyId.value in db.records
      && db.records[grant.policyId.value].body.RuntimePolicy?
  {
    hide Sound, RecordsOk;
    SoundParts(db);
    RecordAt(db, receipt);
    RecordAt(db, db.records[receipt].body.authorization);
  }

  lemma VerifyBecause(db: Db, principal: Id, id: Id, receipt: Id, observation: Id, w: World)
    requires Sound(db)
    ensures var answer := VerifyReceipt(db, principal, id, receipt, observation, w);
      answer.Refused? && answer.error != Crash ==>
        Explains(db, CallVerifyReceipt(principal, id, receipt, observation), w, answer.error)
  {
    hide Sound, VerificationFault, Explains;
    if receipt in db.records && db.records[receipt].body.Receipt? { ReceiptStandsOnRecord(db, receipt); }
    VerificationRefused(db, principal, id, receipt, observation, w);
    if VerificationFault(db, principal, receipt, observation, w) == None {
      FaultlessNames(db, principal, receipt, observation, w);
    }
  }

  lemma VerificationRefused(db: Db, principal: Id, id: Id, receipt: Id, observation: Id, w: World)
    requires receipt in db.records && db.records[receipt].body.Receipt? ==>
      && db.records[receipt].body.authorization in db.records && IsIntegration(db, db.records[receipt].integration)
      && var grant := db.records[db.records[receipt].body.authorization].body;
      && grant.Authorization? && grant.policyId.Some? && grant.policyId.value in db.records
      && db.records[grant.policyId.value].body.RuntimePolicy?
    ensures var fault := VerificationFault(db, principal, receipt, observation, w);
      fault.Some? && fault != Some(Crash) ==>
        Explains(db, CallVerifyReceipt(principal, id, receipt, observation), w, fault.value)
  {
  }

  /** A refused call is refused for a reason: what it names is missing, the caller lacks the right, the call
      contradicts itself, or what is on record stands against it, as its error says. */
  lemma RefusalsSayWhy(db: Db, call: Call, w: World)
    requires Sound(db) && NamesAreNew(db, call) && Apply(db, call, w).Refused?
    ensures Explains(db, call, w, Apply(db, call, w).error)
  {
    hide Sound, RecordsOk, SubmitRevision, SubmitObservation, DraftPolicy, Decide, Issue, Consume, RecordReceipt,
         VerifyReceipt, Outcomes.Exists, Unseen, Overreaches, Closed, OnFile, Outcomes.Permits, Outcomes.PolicyOf,
         Reviewable, OffTheMark, Distrusted, IsAsleep, NamesAreNew;
    NothingCrashes(db, Event(call, w));
    match call
    case CallSubmitRevision(principal, id, system, manifest) =>
      if IsIntegration(db, principal) { ReviseBecause(db, principal, id, system, manifest, Machine(principal), w); }
      NobodySees(db, principal, system);
    case CallSubmitRevisionByHuman(actor, permitted, principal, id, system, manifest) =>
      if IsIntegration(db, principal) { ReviseBecause(db, principal, id, system, manifest, Human(actor), w); }
      NobodySees(db, principal, system);
    case CallSubmitObservation(principal, id, system, name, check, result, observedAt, digest, evidenceRef,
                               actionDigest, resource) =>
      ObserveBecause(db, principal, id, Observation(system, name, check, result, observedAt, digest, evidenceRef,
                                                    actionDigest, resource), w);
    case CallDraftPolicy(actor, permitted, id, system, policy) =>
      DraftBecause(db, actor, permitted, id, system, policy, w);
    case CallDecide(actor, permitted, id, target, decision, expected) =>
      DecideBecause(db, actor, permitted, id, target, decision, expected, w);
    case CallIssue(principal, id, token, request) => IssueBecause(db, principal, id, token, request, w);
    case CallConsume(principal, token, request) => ConsumeBecause(db, principal, token, request, w);
    case CallRecordReceipt(principal, id, authorization, executed, evidenceRef) =>
      ReportBecause(db, principal, id, authorization, executed, evidenceRef, w);
    case CallVerifyReceipt(principal, id, receipt, observation) =>
      VerifyBecause(db, principal, id, receipt, observation, w);
    case CallSubmitSystem(principal, id, displayName, resourceType, externalName, purpose, legacy) =>
      SubmitSystemBecause(db, principal, id, displayName, resourceType, externalName, purpose, legacy, w);
    case _ =>
  }

  lemma NobodySees(db: Db, principal: Id, system: Id)
    ensures !IsIntegration(db, principal) || !IsSystem(db, system) ==> Unseen(db, principal, system)
  {
  }

  lemma SubmitSystemBecause(db: Db, principal: Id, id: Id, displayName: string, resourceType: string,
                            externalName: string, purpose: string, legacy: Option<string>, w: World)
    ensures var answer := SubmitSystem(db, principal, id, displayName, resourceType, externalName, purpose, legacy, w);
      answer.Refused? && answer.error != Crash ==>
        Explains(db, CallSubmitSystem(principal, id, displayName, resourceType, externalName, purpose, legacy), w,
                 answer.error)
  {
  }
}
