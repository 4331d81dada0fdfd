/** What a caller can count on of every call of the portable protocol: exactly when it goes through, and
    what it leaves on record when it does (services/portable.py, api/portable.py). */
module PortableEffects {

  import opened Common
  import opened PortableRecords
  import opened PortableEvaluate
  import Outcomes = PortableOutcomes
  import opened PortableSteps
  import opened PortableProtocol
  import opened PortableRuns

  // ----- when a call goes through -----

  /** A machine may write: its integration is active and anchored, its organization is not suspended, and it
      holds the scope. */
  predicate Live(db: Db, principal: Id, scope: AccessScope, w: World) {
    && IsIntegration(db, principal) && db.records[principal].audited && db.records[principal].state == Active
    && w.organizationActive && scope in db.records[principal].body.scopes
  }

  predicate Sees(db: Db, principal: Id, system: Id) {
    && IsIntegration(db, principal) && IsSystem(db, system) && SystemsRead in db.records[principal].body.scopes
    && db.records[system].place == db.records[principal].place
  }

  /** The principal may submit the manifest: the system is its own and not retired, and the revision's name
      is free or taken by the very same manifest. */
  predicate MayRevise(db: Db, principal: Id, system: Id, manifest: Manifest) {
    && Sees(db, principal, system) && db.records[system].integration == principal
    && RevisionsWrite in db.records[principal].body.scopes && db.records[system].state != Retired
    && var filed := Filed(db, principal, RevisionKey(system, manifest.revision));
    filed.Some? ==> db.records[filed.value].body == Revision(system, manifest)
  }

  /** A live evidence source of the target's place. */
  predicate IsTrustworthy(db: Db, source: Id, target: Id)
    requires target in db.records
  {
    && IsIntegration(db, source) && db.records[source].audited && db.records[source].state == Active
    && ObservationsWrite in db.records[source].body.scopes && db.records[source].place == db.records[target].place
  }

  /** A release of the revision would be allowed, or only its review is missing. */
  ghost predicate Reviewable(db: Db, revision: Id, w: World)
    requires IsRevision(db, revision)
  {
    var executor, release := db.records[revision].integration, Request(revision, Release, None);
    && IsIntegration(db, executor)
    && (Outcomes.Permits(db, executor, release, w)
        || Outcomes.Grounds(db, executor, release, w, RevisionRequiresReview))
  }

  ghost predicate MayDecide(db: Db, actor: string, permitted: bool, target: Id, decision: DecisionKind, expected: Body,
                            w: World)
  {
    && permitted && target in db.records
    && var r := db.records[target];
    && r.body == expected && r.createdBy != Human(actor)
    && match decision
       case ApproveSystem => r.body.System? && r.state == Planned && r.body.purpose != ""
       case RetireSystem => r.body.System? && r.state in {Planned, Approved}
       case ApproveRevision => r.body.Revision? && r.state == PendingReview && Reviewable(db, target, w)
       case ActivatePolicy =>
         && r.body.RuntimePolicy? && r.state == Draft
         && forall s <- r.body.policy.trustedSources :: IsTrustworthy(db, s, target)
  }

  ghost predicate MayConsume(db: Db, principal: Id, token: string, request: Request, w: World) {
    && Live(db, principal, AuthorizationsRequest, w) && token in db.permits
    && var permit := db.permits[token];
    && permit.grant in db.records && db.records[permit.grant].body.Authorization?
    && var grant := db.records[permit.grant];
    && grant.integration == principal && grant.audited && permit.consumedAt == None && w.now < permit.expiresAt
    && request == grant.body.request
    && Outcomes.Permits(db, principal, request, w) && Outcomes.PolicyOf(db, request) == grant.body.policyId
  }

  predicate MayReport(db: Db, principal: Id, authorization: Id, executed: bool, evidenceRef: string, w: World) {
    && Live(db, principal, ReceiptsWrite, w)
    && authorization in db.records && db.records[authorization].body.Authorization?
    && db.records[authorization].integration == principal
    && db.records[authorization].state == Consumed && db.records[authorization].audited
    && var filed := FiledReceipt(db, authorization);
    (filed.Some? ==>
       && db.records[filed.value].body.executed == executed && db.records[filed.value].body.evidenceRef == evidenceRef
       && db.records[filed.value].body.authorization == authorization)
  }

  /** The observer is trusted by the policy that authorized the action, is not its executor, and observed, after
      the execution was reported and recently, the outcome of exactly that action. */
  predicate MayVerify(db: Db, principal: Id, receiptId: Id, observationId: Id, w: World) {
    && Live(db, principal, ObservationsWrite, w)
    && receiptId in db.records && db.records[receiptId].body.Receipt?
    && observationId in db.records && db.records[observationId].body.Observation?
    && var r, o := db.records[receiptId], db.records[observationId];
    && r.place == db.records[principal].place && r.audited && r.state == VerificationPending && r.integration != principal
    && o.audited && o.integration == principal
    && r.body.authorization in db.records && db.records[r.body.authorization].body.Authorization?
    && var grant := db.records[r.body.authorization].body;
    && grant.policyId.Some? && grant.policyId.value in db.records && db.records[grant.policyId.value].body.RuntimePolicy?
    && principal in db.records[grant.policyId.value].body.policy.trustedSources
    && grant.request.action.Some? && IsIntegration(db, r.integration)
    && var c := FirstCapability(db.records[r.integration].body.capabilities, grant.request.action.value.capability);
    && c.Some? && o.body.check == c.value.verificationCheck && o.body.system == r.body.system
    && o.body.revisionDigest == grant.manifestDigest && o.body.actionDigest == Some(OfRequest(grant.request))
    && o.body.resource == Some(grant.request.action.value.resource)
    && r.body.verificationAfter <= o.body.observedAt
    && w.now <= o.body.observedAt + db.records[grant.policyId.value].body.policy.evidenceMaxAge
  }

  ghost predicate Open(db: Db, call: Call, w: World) {
    match call
    case CallCreateIntegration(id, actor, permitted, place, scopes, capabilities) =>
      && permitted && SystemsRead in scopes
      && forall i, j :: 0 <= i < j < |capabilities| ==> capabilities[i].name != capabilities[j].name
    case CallRevoke(id, permitted) => permitted && IsIntegration(db, id)
    case CallRotate(id, permitted) => permitted && IsIntegration(db, id) && db.records[id].state == Active
    case CallSubmitSystem(principal, id, displayName, resourceType, externalName, purpose, legacy) =>
      Live(db, principal, SystemsWrite, w)
    case CallSubmitRevision(principal, id, system, manifest) =>
      Live(db, principal, SystemsRead, w) && MayRevise(db, principal, system, manifest)
    case CallSubmitRevisionByHuman(actor, permitted, principal, id, system, manifest) =>
      permitted && MayRevise(db, principal, system, manifest) && db.records[principal].state == Active
    case CallSubmitObservation(principal, id, system, name, check, result, observedAt, digest, evidenceRef,
                               actionDigest, resource) =>
      && Live(db, principal, ObservationsWrite, w) && Sees(db, principal, system) && observedAt <= w.now
      && var filed := Filed(db, principal, ObservationKey(system, name));
      filed.Some? ==> db.records[filed.value].body
                      == Observation(system, name, check, result, observedAt, digest, evidenceRef, actionDigest, resource)
    case CallDraftPolicy(actor, permitted, id, system, policy) =>
      permitted && IsSystem(db, system) && forall s <- policy.trustedSources :: IsTrustworthy(db, s, system)
    case CallDecide(actor, permitted, id, target, decision, expected) =>
      MayDecide(db, actor, permitted, target, decision, expected, w)
    case CallIssue(principal, id, token, request) =>
      && Live(db, principal, AuthorizationsRequest, w) && Outcomes.MayAsk(db, principal, request)
      && (Outcomes.InBounds(db, principal, request) ==> Outcomes.WellFormed(request))
    case CallConsume(principal, token, request) => MayConsume(db, principal, token, request, w)
    case CallRecordReceipt(principal, id, authorization, executed, evidenceRef) =>
      MayReport(db, principal, authorization, executed, evidenceRef, w)
    case CallVerifyReceipt(principal, id, receipt, observation) => MayVerify(db, principal, receipt, observation, w)
    case CallAppend(id, seen) => true
    case CallAnchor(id, seen) =>
      && TrailEntry(id, seen.state, seen.body, seen.decisionId) in db.trail && id in db.records
      && var r := db.records[id];
      && r.state == seen.state && r.body == seen.body && r.decisionId == seen.decisionId && r.updatedAt == seen.updatedAt
  }

  lemma {:induction false} TrustedExactly(db: Db, sources: seq<Id>, target: Id)
    requires target in db.records
    ensures UntrustedSource(db, sources, target) == None <==> forall s <- sources :: IsTrustworthy(db, s, target)
  {
    if sources != [] {
      TrustedExactly(db, sources[1..], target);
      assert UntrustedSource(db, sources, target) == None
        <==> IsTrustworthy(db, sources[0], target) && UntrustedSource(db, sources[1..], target) == None;
      hide UntrustedSource, IsTrustworthy;
      assert forall s :: s in sources <==> s == sources[0] || s in sources[1..];
    }
  }

  lemma RevisesExactly(db: Db, principal: Id, id: Id, system: Id, manifest: Manifest, author: Actor, w: World)
    requires IsIntegration(db, principal)
    ensures var answer := SubmitRevision(db, principal, id, system, manifest, author, w);
      answer == Refused(Crash) || (answer.Done? <==> MayRevise(db, principal, system, manifest))
  {
  }

  lemma ReviewableExactly(db: Db, revision: Id, w: World)
    requires IsRevision(db, revision)
    ensures ReviewFault(db, revision, w) == None <==> Reviewable(db, revision, w)
  {
    hide Evaluate, Outcomes.Permits, Outcomes.Denies, Outcomes.AsksForReview, Outcomes.CannotTell, Outcomes.Grounds;
    var executor, release := db.records[revision].integration, Request(revision, Release, None);
    if IsIntegration(db, executor) {
      Outcomes.ReviewReason(db, executor, release, w);
    }
  }

  lemma DecidesExactly(db: Db, actor: string, permitted: bool, id: Id, target: Id, decision: DecisionKind,
                       expected: Body, w: World)
    requires Sound(db)
    ensures var answer := Decide(db, actor, permitted, id, target, decision, expected, w);
      answer == Refused(Crash)
      || (answer.Done? <==> MayDecide(db, actor, permitted, target, decision, expected, w))
  {
    hide Sound, RecordsOk, ReviewFault, Reviewable, UntrustedSource, Supersede, IsTrustworthy, SetState;
    if target in db.records {
      SoundParts(db);
      RecordAt(db, target);
      if db.records[target].body.Revision? { ReviewableExactly(db, target, w); }
      if db.records[target].body.RuntimePolicy? {
        TrustedExactly(db, db.records[target].body.policy.trustedSources, target);
      }
    }
  }

  lemma DraftsExactly(db: Db, actor: string, permitted: bool, id: Id, system: Id, policy: Policy, w: World)
    ensures var answer := DraftPolicy(db, actor, permitted, id, system, policy, w);
      answer == Refused(Crash)
      || (answer.Done?
          <==> permitted && IsSystem(db, system) && forall s <- policy.trustedSources :: IsTrustworthy(db, s, system))
  {
    hide UntrustedSource, IsTrustworthy;
    if IsSystem(db, system) { TrustedExactly(db, policy.trustedSources, system); }
  }

  lemma AsksOfItsOwn(db: Db, principal: Id, request: Request)
    requires IsIntegration(db, principal)
    ensures Outcomes.MayAsk(db, principal, request) ==> Outcomes.Exists(db, principal, request)
  {
  }

  lemma AllowNamesPolicy(db: Db, principal: Id, request: Request, w: World)
    requires IsIntegration(db, principal) && Allows(Evaluate(db, principal, request, w))
    ensures var p := Evaluate(db, principal, request, w).value.policyId;
      IsRevision(db, request.revision) && p.Some? && p.value in db.records && db.records[p.value].body.RuntimePolicy?
  {
    hide Evaluate, Merits;
    AllowsExactlyEligible(db, principal, request, w);
  }

  lemma IssuesExactly(db: Db, principal: Id, id: Id, token: string, request: Request, w: World)
    ensures var answer := Issue(db, principal, id, token, request, w);
      answer == Refused(Crash)
      || (answer.Done? <==> Open(db, CallIssue(principal, id, token, request), w))
  {
    hide Evaluate, Outcomes.Permits, Outcomes.Denies, Outcomes.AsksForReview, Outcomes.CannotTell, Outcomes.MayAsk,
         Outcomes.InBounds, Outcomes.WellFormed, ActivePolicies, Outcomes.Exists;
    if IsIntegration(db, principal) {
      Outcomes.OutcomesAreExact(db, principal, request, w);
      AsksOfItsOwn(db, principal, request);
      if Allows(Evaluate(db, principal, request, w)) { AllowNamesPolicy(db, principal, request, w); }
    }
  }

  lemma ConsumesExactly(db: Db, principal: Id, token: string, request: Request, w: World)
    ensures Consume(db, principal, token, request, w).Done? <==> MayConsume(db, principal, token, request, w)
  {
    hide Evaluate, Outcomes.Permits, Outcomes.Denies, Outcomes.AsksForReview, Outcomes.CannotTell, Outcomes.MayAsk,
         Outcomes.InBounds, Outcomes.WellFormed, ActivePolicies, Outcomes.Exists, Outcomes.PolicyOf;
    if IsIntegration(db, principal) {
      Outcomes.OutcomesAreExact(db, principal, request, w);
      if Evaluate(db, principal, request, w).Done? {
        Outcomes.VerdictNamesItsGrounds(db, principal, request, w);
      }
    }
  }

  lemma VerifiesExactly(db: Db, principal: Id, id: Id, receipt: Id, observation: Id, w: World)
    ensures var answer := VerifyReceipt(db, principal, id, receipt, observation, w);
      answer == Refused(Crash) || (answer.Done? <==> MayVerify(db, principal, receipt, observation, w))
  {
  }

  /** A call goes through exactly when its condition holds; otherwise it is refused and changes nothing. */
  lemma GoesThroughExactly(db: Db, call: Call, w: World)
    requires Sound(db) && NamesAreNew(db, call)
    ensures Apply(db, call, w).Done? <==> Open(db, call, w)
  {
    hide Sound, RecordsOk, SubmitRevision, DraftPolicy, Decide, Issue, Consume, VerifyReceipt, MayRevise, MayDecide,
         MayConsume, MayVerify, IsTrustworthy, NamesAreNew, Outcomes.MayAsk, Outcomes.InBounds;
    NothingCrashes(db, Event(call, w));
    match call
    case CallSubmitRevision(principal, id, system, manifest) =>
      if IsIntegration(db, principal) { RevisesExactly(db, principal, id, system, manifest, Machine(principal), w); }
      ReadsSystems(db, principal, system, manifest);
    case CallSubmitRevisionByHuman(actor, permitted, principal, id, system, manifest) =>
      if IsIntegration(db, principal) { RevisesExactly(db, principal, id, system, manifest, Human(actor), w); }
      ReadsSystems(db, principal, system, manifest);
    case CallDraftPolicy(actor, permitted, id, system, policy) =>
      DraftsExactly(db, actor, permitted, id, system, policy, w);
    case CallDecide(actor, permitted, id, target, decision, expected) =>
      DecidesExactly(db, actor, permitted, id, target, decision, expected, w);
    case CallIssue(principal, id, token, request) => IssuesExactly(db, principal, id, token, request, w);
    case CallConsume(principal, token, request) => ConsumesExactly(db, principal, token, request, w);
    case CallVerifyReceipt(principal, id, receipt, observation) =>
      VerifiesExactly(db, principal, id, receipt, observation, w);
    case _ =>
  }

  lemma ReadsSystems(db: Db, principal: Id, system: Id, manifest: Manifest)
    ensures MayRevise(db, principal, system, manifest) ==>
              IsSystem(db, system) && IsIntegration(db, principal)
              && SystemsRead in db.records[principal].body.scopes
  {
  }

  // ----- what it leaves -----

  /** A record filed by the call, next to all there were. */
  predicate Files(a: Db, b: Db, id: Id, place: Place, integration: Id, state: State, body: Body, who: Actor, w: World) {
    && id in b.records
    && var r := b.records[id];
    && r.place == place && r.integration == integration && r.state == state && r.body == body && r.createdBy == who
    && r.createdAt == w.now && r.updatedAt == w.now && !r.audited && r.decisionId == None
    && b.records == a.records[id := r]
  }

  predicate SameTables(a: Db, b: Db) {
    a.permits == b.permits && a.trail == b.trail
  }

  /** The policies in force for the system, apart from the one activated, are superseded, and no other record
      changes. */
  predicate Replaces(a: Db, b: Db, target: Id, id: Id) {
    forall i <- a.records | i != target ::
      i in b.records
      && (if target in a.records && a.records[target].body.RuntimePolicy?
             && IsActivePolicy(a.records[i]) && a.records[i].body.system == a.records[target].body.system
          then b.records[i].state == Superseded && b.records[i].body == a.records[i].body
          else b.records[i] == a.records[i])
  }

  predicate Stands(a: Db, b: Db, actor: string, id: Id, target: Id, decision: DecisionKind) {
    && target in a.records && target in b.records && id in b.records && b.records.Keys == a.records.Keys + {id}
    && var r, s, d := a.records[target], b.records[target], b.records[id];
    && s.body == r.body && s.decisionId == Some(id) && !s.audited
    && s.state == (match decision
                   case ApproveSystem => Approved
                   case ApproveRevision => Approved
                   case ActivatePolicy => Active
                   case RetireSystem => Retired)
    && d.body.Decision? && d.body.target == target && d.body.decision == decision && d.body.snapshot == r.body
    && d.createdBy == Human(actor)
    && Replaces(a, b, target, id)
  }

  /** An authorization bears the answer to its request, and a permit goes with an allow and nothing else. */
  ghost predicate Grants(a: Db, b: Db, principal: Id, id: Id, token: string, request: Request, w: World)
    requires IsIntegration(a, principal) && IsRevision(a, request.revision)
  {
    var revision, policy := a.records[request.revision].body, Outcomes.PolicyOf(a, request);
    && id in b.records && b.records[id].body.Authorization?
    && var outcome := b.records[id].body.outcome;
    && (outcome == Allow <==> Outcomes.Permits(a, principal, request, w))
    && (outcome == Deny <==> Outcomes.Denies(a, principal, request, w))
    && (outcome == RequiresReview <==> Outcomes.AsksForReview(a, principal, request, w))
    && (outcome == Indeterminate <==> Outcomes.CannotTell(a, principal, request, w))
    && Files(a.(permits := b.permits), b, id, a.records[principal].place, principal, Evaluated(outcome),
             Authorization(revision.system, request.revision, OfManifest(revision.manifest), policy, outcome, request),
             Machine(principal), w)
    && b.trail == a.trail
    && (if outcome == Allow then
          && policy.Some?
          && b.permits == a.permits[token := Permit(id, w.now + Outcomes.Rules(a, request).permitTtl, None)]
        else b.permits == a.permits)
  }

  /** What is on record after a call that went through. */
  ghost predicate Leaves(a: Db, call: Call, w: World, b: Db) {
    match call
    case CallCreateIntegration(id, actor, permitted, place, scopes, capabilities) =>
      Files(a, b, id, place, NOBODY, Active, Integration(scopes, capabilities), Human(actor), w) && SameTables(a, b)
    case CallRevoke(id, permitted) => Marks(a, b, id, Revoked, w) && SameTables(a, b)
    case CallRotate(id, permitted) => Marks(a, b, id, Active, w) && SameTables(a, b)
    case CallSubmitSystem(principal, id, displayName, resourceType, externalName, purpose, legacy) =>
      IsIntegration(a, principal) && SameTables(a, b) &&
      var place, body := a.records[principal].place, System(displayName, resourceType, externalName, purpose, legacy);
      (match FiledSystem(a, principal, SystemKey(resourceType, externalName), place)
       case None => Files(a, b, id, place, principal, Planned, body, Machine(principal), w)
       case Some(s) =>
         && s in b.records && b.records.Keys == a.records.Keys
         && (forall i <- a.records | i != s :: b.records[i] == a.records[i])
         && b.records[s].body == body && !b.records[s].audited
         && b.records[s].state == if a.records[s].state == Retired then Retired
                                  else if a.records[s].body.purpose == purpose && a.records[s].body.legacy == legacy
                                  then a.records[s].state else Planned)
    case CallSubmitRevision(principal, id, system, manifest) =>
      Submits(a, b, id, principal, system, RevisionKey(system, manifest.revision), PendingReview,
              Revision(system, manifest), Machine(principal), w)
    case CallSubmitRevisionByHuman(actor, permitted, principal, id, system, manifest) =>
      Submits(a, b, id, principal, system, RevisionKey(system, manifest.revision), PendingReview,
              Revision(system, manifest), Human(actor), w)
    case CallSubmitObservation(principal, id, system, name, check, result, observedAt, digest, evidenceRef,
                               actionDigest, resource) =>
      Submits(a, b, id, principal, system, ObservationKey(system, name), Recorded,
              Observation(system, name, check, result, observedAt, digest, evidenceRef, actionDigest, resource),
              Machine(principal), w)
    case CallDraftPolicy(actor, permitted, id, system, policy) =>
      && system in a.records && SameTables(a, b)
      && Files(a, b, id, a.records[system].place, NOBODY, Draft, RuntimePolicy(system, policy), Human(actor), w)
    case CallDecide(actor, permitted, id, target, decision, expected) =>
      Stands(a, b, actor, id, target, decision) && SameTables(a, b)
    case CallIssue(principal, id, token, request) =>
      IsIntegration(a, principal) && IsRevision(a, request.revision) && Grants(a, b, principal, id, token, request, w)
    case CallConsume(principal, token, request) =>
      && token in a.permits && a.trail == b.trail
      && b.permits == a.permits[token := a.permits[token].(consumedAt := Some(w.now))]
      && Marks(a, b, a.permits[token].grant, Consumed, w)
    case CallRecordReceipt(principal, id, authorization, executed, evidenceRef) =>
      Reports(a, b, principal, id, authorization, executed, evidenceRef, w)
    case CallVerifyReceipt(principal, id, receipt, observation) =>
      && receipt in a.records && a.records[receipt].body.Receipt? && SameTables(a, b)
      && observation in a.records && a.records[observation].body.Observation?
      && id in b.records
      && var middle := a.(records := a.records[id := b.records[id]]);
      && Files(a, middle, id, a.records[receipt].place, principal, Recorded,
               Verification(a.records[receipt].body.system, receipt, observation), Machine(principal), w)
      && Marks(middle, b, receipt,
               if a.records[observation].body.result == Passing then Verified else FailedState, w)
    case CallAppend(id, seen) =>
      b == a.(trail := a.trail + {TrailEntry(id, seen.state, seen.body, seen.decisionId)})
    case CallAnchor(id, seen) =>
      id in a.records && b == a.(records := a.records[id := a.records[id].(audited := true)])
  }

  /** A record moves to a state, unanchored; nothing else of it changes, and no other record. */
  predicate Marks(a: Db, b: Db, id: Id, state: State, w: World) {
    && id in a.records && id in b.records && b.records == a.records[id := b.records[id]]
    && var r, s := a.records[id], b.records[id];
    && s.state == state && s.updatedAt == w.now && !s.audited
    && s.body == r.body && s.place == r.place && s.integration == r.integration && s.key == r.key
    && s.createdBy == r.createdBy && s.createdAt == r.createdAt && s.decisionId == r.decisionId
  }

  /** Filed once under its name; the same again changes nothing. */
  predicate Submits(a: Db, b: Db, id: Id, principal: Id, system: Id, key: ExternalKey, state: State, body: Body,
                    who: Actor, w: World)
  {
    && system in a.records
    && if Filed(a, principal, key).Some? then b == a
       else Files(a, b, id, a.records[system].place, principal, state, body, who, w) && SameTables(a, b)
  }

  predicate Reports(a: Db, b: Db, principal: Id, id: Id, authorization: Id, executed: bool, evidenceRef: string, w: World)
  {
    && authorization in a.records && a.records[authorization].body.Authorization?
    && if FiledReceipt(a, authorization).Some? then b == a
       else
         var grant := a.records[authorization];
         var purpose := grant.body.request.purpose;
         && SameTables(a, b) && id in b.records
         && (b.records[id].state == FailedState <==> !executed)
         && (b.records[id].state == ReportedExecuted <==> executed && purpose == Release)
         && (b.records[id].state == VerificationPending <==> executed && purpose in {Runtime, Remediation})
         && Files(a, b, id, grant.place, principal, b.records[id].state,
                  Receipt(grant.body.system, authorization, executed, evidenceRef, w.now, grant.body.revision,
                          grant.body.policyId, purpose), Machine(principal), w)
  }

  lemma AnsweredAboutARevision(a: Db, principal: Id, request: Request, w: World)
    ensures IsIntegration(a, principal) && Evaluate(a, principal, request, w).Done? ==> IsRevision(a, request.revision)
  {
  }

  /** The writes of an issue, in terms of the verdict. */
  lemma IssueWrites(a: Db, principal: Id, id: Id, token: string, request: Request, w: World)
    requires Issue(a, principal, id, token, request, w).Done?
    ensures IsIntegration(a, principal) && Evaluate(a, principal, request, w).Done? && IsRevision(a, request.revision)
    ensures var b := Issue(a, principal, id, token, request, w).value;
      var verdict, revision := Evaluate(a, principal, request, w).value, a.records[request.revision].body;
      && Files(a.(permits := b.permits), b, id, a.records[principal].place, principal, Evaluated(verdict.outcome),
               Authorization(revision.system, request.revision, OfManifest(revision.manifest), verdict.policyId,
                             verdict.outcome, request),
               Machine(principal), w)
      && b.trail == a.trail
      && if verdict.outcome == Allow then
           && verdict.policyId.Some? && verdict.policyId.value in a.records
           && a.records[verdict.policyId.value].body.RuntimePolicy?
           && b.permits == a.permits[token :=
                Permit(id, w.now + a.records[verdict.policyId.value].body.policy.permitTtl, None)]
         else b.permits == a.permits
  {
    hide Evaluate, TryInsert;
    AnsweredAboutARevision(a, principal, request, w);
    InsertsWhatItIs(a, id);
  }

  lemma IssueLeaves(a: Db, principal: Id, id: Id, token: string, request: Request, w: World)
    requires Issue(a, principal, id, token, request, w).Done?
    ensures Leaves(a, CallIssue(principal, id, token, request), w, Issue(a, principal, id, token, request, w).value)
  {
    hide Evaluate, Outcomes.Permits, Outcomes.Denies, Outcomes.AsksForReview, Outcomes.CannotTell, Outcomes.PolicyOf,
         Outcomes.Exists, Outcomes.MayAsk, Outcomes.InBounds, Outcomes.Examined, Outcomes.AllPass, Issue, Files;
    IssueWrites(a, principal, id, token, request, w);
    Outcomes.OutcomesAreExact(a, principal, request, w);
    Outcomes.VerdictNamesItsGrounds(a, principal, request, w);
    FilesItsBody(a, Issue(a, principal, id, token, request, w).value, id);
  }

  lemma FilesItsBody(a: Db, b: Db, id: Id)
    ensures forall p, place, integration, state, body, who, w ::
              Files(a.(permits := p), b, id, place, integration, state, body, who, w)
              ==> id in b.records && b.records[id].body == body
  {
  }

  lemma DecideLeaves(a: Db, actor: string, permitted: bool, id: Id, target: Id, decision: DecisionKind,
                     expected: Body, w: World)
    requires Sound(a) && id !in a.records && Decide(a, actor, permitted, id, target, decision, expected, w).Done?
    ensures var b := Decide(a, actor, permitted, id, target, decision, expected, w).value;
      Stands(a, b, actor, id, target, decision) && SameTables(a, b)
  {
    hide DecisionFault, Priors, Sound, TryInsert;
    DecidesSomething(a, actor, permitted, target, decision, expected, w);
    InsertsWhatItIs(Supersede(a, Priors(a, target), w.now), id);
    var priors := Priors(a, target);
    PriorsAreActive(a, target);
    assert target !in priors ==> Supersede(a, priors, w.now).records[target] == a.records[target];
  }

  lemma DecidesSomething(a: Db, actor: string, permitted: bool, target: Id, decision: DecisionKind, expected: Body,
                         w: World)
    ensures DecisionFault(a, actor, permitted, target, decision, expected, w) == None ==> target in a.records
  {
    hide ReviewFault, UntrustedSource, Terminal;
  }

  lemma InsertsWhatItIs(a: Db, id: Id)
    ensures forall r :: TryInsert(a, id, r).Done? ==> TryInsert(a, id, r).value == Insert(a, id, r)
  {
  }

  lemma PriorsAreActive(a: Db, target: Id)
    requires Sound(a) && target in a.records
    ensures var r := a.records[target];
      forall i :: i in Priors(a, target) <==>
        r.body.RuntimePolicy? && i in a.records && IsActivePolicy(a.records[i]) && a.records[i].body.system == r.body.system
  {
    hide Sound, RecordsOk;
    SoundParts(a);
    RecordAt(a, target);
    forall i | i in a.records && IsActivePolicy(a.records[i])
      ensures a.records[i].body.system in a.records && a.records[i].place == a.records[a.records[i].body.system].place
    {
      RecordAt(a, i);
    }
  }

  lemma VerifyLeaves(a: Db, principal: Id, id: Id, receipt: Id, observation: Id, w: World)
    requires id !in a.records && VerifyReceipt(a, principal, id, receipt, observation, w).Done?
    ensures Leaves(a, CallVerifyReceipt(principal, id, receipt, observation), w,
                   VerifyReceipt(a, principal, id, receipt, observation, w).value)
  {
    VerifyWrites(a, principal, id, receipt, observation, w);
    hide VerifyReceipt, VerificationFault, TryInsert;
  }

  /** Every call that goes through leaves on record what it says, and nothing else has changed. */
  lemma CallsTakeEffect(db: Db, call: Call, w: World)
    requires Sound(db) && NamesAreNew(db, call) && Apply(db, call, w).Done?
    ensures Leaves(db, call, w, Apply(db, call, w).value)
  {
    hide Sound, DraftPolicy, Decide, Issue, VerifyReceipt, Stands, Grants, Submits, SubmitRevision, SubmitObservation,
         SubmitSystem, Consume, RecordReceipt, Reports;
    match call
    case CallDraftPolicy(actor, permitted, id, system, policy) =>
      DraftLeaves(db, actor, permitted, id, system, policy, w);
    case CallDecide(actor, permitted, id, target, decision, expected) =>
      DecideLeaves(db, actor, permitted, id, target, decision, expected, w);
    case CallIssue(principal, id, token, request) => IssueLeaves(db, principal, id, token, request, w);
    case CallVerifyReceipt(principal, id, receipt, observation) =>
      VerifyLeaves(db, principal, id, receipt, observation, w);
    case CallSubmitSystem(principal, id, displayName, resourceType, externalName, purpose, legacy) =>
      SubmitSystemLeaves(db, principal, id, displayName, resourceType, externalName, purpose, legacy, w);
    case CallConsume(principal, token, request) => ConsumeLeaves(db, principal, token, request, w);
    case CallSubmitRevision(principal, id, system, manifest) =>
      ByMachineIsSubmitRevision(db, principal, id, system, manifest, w);
      SubmitRevisionLeaves(db, principal, id, system, manifest, Machine(principal), w);
    case CallSubmitRevisionByHuman(actor, permitted, principal, id, system, manifest) =>
      ByHumanIsSubmitRevision(db, actor, permitted, principal, id, system, manifest, w);
      SubmitRevisionLeaves(db, principal, id, system, manifest, Human(actor), w);
    case CallSubmitObservation(principal, id, system, name, check, result, observedAt, digest, evidenceRef,
                               actionDigest, resource) =>
      SubmitObservationLeaves(db, principal, id, Observation(system, name, check, result, observedAt, digest, evidenceRef,
                                                             actionDigest, resource), w);
    case CallRecordReceipt(principal, id, authorization, executed, evidenceRef) =>
      RecordReceiptLeaves(db, principal, id, authorization, executed, evidenceRef, w);
    case _ =>
  }

  lemma RecordReceiptLeaves(a: Db, principal: Id, id: Id, authorization: Id, executed: bool, evidenceRef: string, w: World)
    requires RecordReceipt(a, principal, id, authorization, executed, evidenceRef, w).Done?
    ensures Reports(a, RecordReceipt(a, principal, id, authorization, executed, evidenceRef, w).value, principal, id,
                    authorization, executed, evidenceRef, w)
  {
  }

  lemma SubmitRevisionLeaves(a: Db, principal: Id, id: Id, system: Id, manifest: Manifest, author: Actor, w: World)
    requires IsIntegration(a, principal) && SubmitRevision(a, principal, id, system, manifest, author, w).Done?
    ensures Submits(a, SubmitRevision(a, principal, id, system, manifest, author, w).value, id, principal, system,
                    RevisionKey(system, manifest.revision), PendingReview, Revision(system, manifest), author, w)
  {
  }

  lemma SubmitObservationLeaves(a: Db, principal: Id, id: Id, observation: Body, w: World)
    requires observation.Observation? && SubmitObservation(a, principal, id, observation, w).Done?
    ensures Submits(a, SubmitObservation(a, principal, id, observation, w).value, id, principal, observation.system,
                    ObservationKey(observation.system, observation.name), Recorded, observation, Machine(principal), w)
  {
  }

  lemma DraftLeaves(a: Db, actor: string, permitted: bool, id: Id, system: Id, policy: Policy, w: World)
    requires DraftPolicy(a, actor, permitted, id, system, policy, w).Done?
    ensures Leaves(a, CallDraftPolicy(actor, permitted, id, system, policy), w,
                   DraftPolicy(a, actor, permitted, id, system, policy, w).value)
  {
  }

  lemma SubmitSystemLeaves(a: Db, principal: Id, id: Id, displayName: string, resourceType: string,
                           externalName: string, purpose: string, legacy: Option<string>, w: World)
    requires SubmitSystem(a, principal, id, displayName, resourceType, externalName, purpose, legacy, w).Done?
    ensures Leaves(a, CallSubmitSystem(principal, id, displayName, resourceType, externalName, purpose, legacy), w,
                   SubmitSystem(a, principal, id, displayName, resourceType, externalName, purpose, legacy, w).value)
  {
  }

  lemma ConsumeLeaves(a: Db, principal: Id, token: string, request: Request, w: World)
    requires Consume(a, principal, token, request, w).Done?
    ensures Leaves(a, CallConsume(principal, token, request), w, Consume(a, principal, token, request, w).value)
  {
    hide Evaluate;
  }

  // ----- revocation -----

  /** A call made by the integration, or in its name. */
  predicate IsCallOf(call: Call, id: Id) {
    match call
    case CallSubmitSystem(principal, _, _, _, _, _, _) => principal == id
    case CallSubmitRevision(principal, _, _, _) => principal == id
    case CallSubmitRevisionByHuman(_, _, principal, _, _, _) => principal == id
    case CallSubmitObservation(principal, _, _, _, _, _, _, _, _, _, _) => principal == id
    case CallIssue(principal, _, _, _) => principal == id
    case CallConsume(principal, _, _) => principal == id
    case CallRecordReceipt(principal, _, _, _, _) => principal == id
    case CallVerifyReceipt(principal, _, _, _) => principal == id
    case CallRotate(integration, _) => integration == id
    case _ => false
  }

  /** Once revoked, an integration is shut out for good: whatever happens, no later call of its own goes
      through, and its token cannot be rotated. */
  lemma RevokedIsShutOut(db: Db, id: Id, w: World, events: seq<Event>, call: Call, later: World)
    requires Sound(db) && IsIntegration(db, id) && IsCallOf(call, id)
    requires var b := Next(db, Event(CallRevoke(id, true), w)); Fair(b, events) && NamesAreNew(Run(b, events), call)
    ensures var b := Run(Next(db, Event(CallRevoke(id, true), w)), events);
      id in b.records && b.records[id].state == Revoked && Apply(b, call, later).Refused?
  {
    hide Sound, Fair, Run, NamesAreNew, Live, Sees, MayRevise;
    var revoke := Event(CallRevoke(id, true), w);
    var b := Next(db, revoke);
    RevokesNoName(db, id);
    StepKeeps(db, revoke);
    GoesThroughExactly(db, revoke.call, w);
    CallsTakeEffect(db, revoke.call, w);
    assert b.records[id].state == Revoked && b.records[id].body.Integration?;
    HistoryIsFixed(b, events, id);
    RunKeeps(b, events);
    GoesThroughExactly(Run(b, events), call, later);
    RevokedIsClosed(Run(b, events), id, call, later);
  }

  lemma RevokesNoName(db: Db, id: Id)
    ensures NamesAreNew(db, CallRevoke(id, true))
  {
  }

  lemma RevokedIsClosed(db: Db, id: Id, call: Call, w: World)
    requires IsIntegration(db, id) && db.records[id].state == Revoked && IsCallOf(call, id)
    ensures !Open(db, call, w)
  {
    hide Outcomes.Permits, Outcomes.PolicyOf, Outcomes.MayAsk, Outcomes.InBounds, Outcomes.WellFormed, FirstCapability;
  }
}
