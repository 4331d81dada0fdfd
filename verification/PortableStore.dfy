/** The portable service as it works (services/portable.py, api/portable.py): one connection whose tables
    the operations read and update in place, each inside one transaction that commits or rolls back. */
module PortableStore {

  import opened Common
  import opened PortableRecords
  import opened PortableEvaluate
  import Outcomes = PortableOutcomes
  import opened PortableSteps

  function Excess(used: set<string>, allowed: set<string>): (r: set<string>)
    ensures r == {} <==> used <= allowed
  {
    assert forall u <- used :: u !in allowed ==> u in used - allowed;
    used - allowed
  }

  /** The contents after a transaction are those of the specified step, or the old ones with its refusal. */
  predicate Follows(before: Db, answer: Answer<Db>, fault: Option<Error>, after: Db) {
    match answer
    case Done(next) => fault == None && after == next
    case Refused(error) => fault == Some(error) && after == before
  }

  method Choose<T(==)>(s: set<T>) returns (x: T)
    requires s != {}
    ensures x in s
  {
    x :| x in s;
  }

  class Connection {
    var records: map<Id, Record>
    var permits: map<string, Permit>
    var trail: set<TrailEntry>

    function Contents(): Db
      reads this
    {
      Db(records, permits, trail)
    }

    constructor ()
      ensures Contents() == Db(map[], map[], {})
    {
      records, permits, trail := map[], map[], {};
    }

    // ----- evaluation -----

    method CheckManifest(manifest: Manifest, policy: Policy) returns (blockers: seq<Reason>)
      ensures blockers == ManifestBlockers(manifest, policy)
      ensures blockers == [] <==> WithinPolicy(manifest, policy)
    {
      blockers := [];
      if Excess(manifest.models, policy.models) != {} { blockers := blockers + [OutsideModels]; }
      if Excess(manifest.tools, policy.tools) != {} { blockers := blockers + [OutsideTools]; }
      if Excess(manifest.resources, policy.resources) != {} { blockers := blockers + [OutsideResources]; }
      if manifest.autonomy > policy.maxAutonomy { blockers := blockers + [AutonomyExceedsPolicy]; }
      if manifest.externalAction && !policy.allowExternalAction { blockers := blockers + [ExternalActionNotAllowed]; }
      if (policy.requireHumanCheckpoint
          || (manifest.untrustedInput && manifest.sensitiveData && manifest.externalAction))
         && !manifest.humanCheckpoint
      {
        blockers := blockers + [HumanCheckpointRequired];
      }
    }

    /** The names whose value is missing from the capability or of the wrong type. */
    method CheckParameters(parameters: map<string, Json>, types: map<string, ParameterType>) returns (bad: set<string>)
      ensures bad == BadParameters(parameters, types)
    {
      bad := {};
      var left := parameters.Keys;
      while left != {}
        invariant left <= parameters.Keys
        invariant bad == set k | k in parameters.Keys - left && !(k in types && HasType(parameters[k], types[k]))
        decreases |left|
      {
        var k :| k in left;
        if !(k in types && HasType(parameters[k], types[k])) { bad := bad + {k}; }
        left := left - {k};
      }
    }

    method CheckAction(action: Action, purpose: Purpose, capabilities: seq<Capability>, manifest: Manifest,
                       policy: Policy) returns (blockers: seq<Reason>)
      ensures blockers == ActionBlockers(action, purpose, capabilities, manifest, policy)
      ensures blockers == [] <==> ActionPermitted(action, purpose, capabilities, manifest, policy)
    {
      ActionBlockersEmpty(action, purpose, capabilities, manifest, policy);
      hide ActionPermitted, NormalAll, HasType, BadParameters, CapabilityOf;
      blockers := [];
      var capability := CapabilityOf(capabilities, action.capability);
      var permitted := if purpose == Remediation then policy.remediationActions else policy.actions;
      if action.capability !in permitted || capability == None { blockers := blockers + [ActionNotAllowed]; }
      if action.resource !in policy.resources || action.resource !in manifest.resources {
        blockers := blockers + [ResourceNotAllowed];
      }
      if purpose == Remediation {
        var preapproved := map[];
        if action.capability in policy.actionParameters { preapproved := policy.actionParameters[action.capability]; }
        if NormalAll(action.parameters) != NormalAll(preapproved) {
          blockers := blockers + [ParametersNotPreapproved];
        }
      }
      if capability.Some? {
        var types := capability.value.parameterTypes;
        if action.parameters.Keys != types.Keys { blockers := blockers + [InvalidParameters]; }
        var bad := CheckParameters(action.parameters, types);
        if bad != {} { blockers := blockers + [InvalidParameterValues(bad)]; }
      }
    }

    method Evidence(system: Id, digest: Digest, checks: seq<string>, sources: seq<Id>, age: int, now: Time)
      returns (found: Found)
      ensures found == Gather(Contents(), system, digest, checks, sources, age, now)
      ensures found.gaps == []
              <==> forall check <- checks :: Established(Contents(), system, digest, check, sources, age, now)
    {
      hide Candidates, Decisive, Established;
      ghost var db := Contents();
      var gaps: seq<Reason>, refs: seq<Id> := [], [];
      for i := 0 to |checks|
        invariant Found(gaps, refs) == Gather(db, system, digest, checks[..i], sources, age, now)
      {
        var check := checks[i];
        var latest := Decisive(Contents(), Candidates(Contents(), system, digest, check, sources));
        if latest == None {
          gaps := gaps + [MissingEvidence(check)];
        } else {
          var o := records[latest.value];
          if !o.audited { gaps := gaps + [PendingEvidenceAudit(check)]; }
          else if now - o.body.observedAt > age { gaps := gaps + [StaleEvidence(check)]; }
          else if o.body.result == Unknown { gaps := gaps + [UnknownEvidence(check)]; }
          else if o.body.result != Passing { gaps := gaps + [NonpassingEvidence(check)]; }
          else { refs := refs + [latest.value]; }
        }
        assert checks[..i + 1][..i] == checks[..i];
      }
      assert checks[..|checks|] == checks;
      GatherIsClear(db, system, digest, checks, sources, age, now);
      found := Found(gaps, refs);
    }

    method EvaluateRequest(principal: Id, request: Request, w: World) returns (answer: Answer<Verdict>)
      requires IsIntegration(Contents(), principal)
      ensures answer == Evaluate(Contents(), principal, request, w)
      ensures Allows(answer) <==> exists policyId :: Eligible(Contents(), principal, request, policyId, w)
      ensures Outcomes.Answered(answer) == Some(Deny) <==> Outcomes.Denies(Contents(), principal, request, w)
      ensures Outcomes.Answered(answer) == Some(RequiresReview)
              <==> Outcomes.AsksForReview(Contents(), principal, request, w)
      ensures Outcomes.Answered(answer) == Some(Indeterminate)
              <==> Outcomes.CannotTell(Contents(), principal, request, w)
      ensures forall reason ::
                reason in Outcomes.Listed(answer) <==> Outcomes.Grounds(Contents(), principal, request, w, reason)
    {
      hide ActivePolicy, ManifestBlockers, ActionBlockers, WithinPolicy, ActionPermitted, Gather, Established, Eligible,
           Outcomes.Answered, Outcomes.Denies, Outcomes.AsksForReview, Outcomes.CannotTell, Outcomes.Listed,
           Outcomes.Grounds;
      ghost var db := Contents();
      AllowsExactlyEligible(db, principal, request, w);
      Outcomes.AnswersAreExact(db, principal, request, w);
      if !IsRevision(Contents(), request.revision) { return Refused(NotFound); }
      var revision := records[request.revision];
      var system := revision.body.system;
      var fault := SourceFault(Contents(), principal, system, true);
      if fault.Some? { return Refused(fault.value); }
      var policyId := ActivePolicy(Contents(), system);
      var base := Verdict(Indeterminate, [], policyId, []);
      if records[principal].state != Active { return Done(base.(outcome := Deny, reasons := [ExecutorInactive])); }
      if !records[principal].audited { return Done(base.(reasons := [ExecutorAuditPending])); }
      if records[system].state != Approved {
        return Done(base.(outcome := if records[system].state == Retired then Deny else RequiresReview,
                          reasons := [SystemIs(records[system].state)]));
      }
      if !records[system].audited || !revision.audited || (policyId.Some? && !records[policyId.value].audited) {
        return Done(base.(reasons := [GovernanceAuditPending]));
      }
      if policyId == None { return Done(base.(reasons := [NoActivePolicy])); }
      answer := JudgeRequest(principal, system, request, policyId.value, w);
    }

    /** The part of the evaluation after the governance records are known to be in force. */
    method JudgeRequest(principal: Id, system: Id, request: Request, policyId: Id, w: World)
      returns (answer: Answer<Verdict>)
      requires IsIntegration(Contents(), principal) && IsSystem(Contents(), system)
      requires IsRevision(Contents(), request.revision)
      requires policyId in records && records[policyId].body.RuntimePolicy?
      ensures answer == Judge(Contents(), principal, system, request, policyId, w)
      ensures Allows(answer) <==> Merits(Contents(), principal, system, request, policyId, w)
    {
      hide ManifestBlockers, ActionBlockers, WithinPolicy, ActionPermitted, Gather, Established, Merits, NeedsReview;
      JudgeAllowsOnMerits(Contents(), principal, system, request, policyId, w);
      var base := Verdict(Indeterminate, [], Some(policyId), []);
      var policy := records[policyId].body.policy;
      var manifest := records[request.revision].body.manifest;
      var blockers := CheckManifest(manifest, policy);
      if blockers != [] && request.purpose != Remediation {
        return Done(base.(outcome := Deny, reasons := blockers));
      }
      if request.purpose != Release && request.action == None { return Refused(Unprocessable); }
      if request.purpose == Release && request.action.Some? { return Refused(Unprocessable); }
      if request.action.Some? {
        blockers := CheckAction(request.action.value, request.purpose, records[principal].body.capabilities, manifest,
                                policy);
        if blockers != [] { return Done(base.(outcome := Deny, reasons := blockers)); }
      }
      if request.purpose == Remediation { return Done(base.(outcome := Allow)); }
      var legacy := records[system].body.legacy;
      if legacy.Some? && w.unfolded > 0 { return Done(base.(reasons := [PendingLegacyEvidence])); }
      blockers := [];
      if legacy.Some? {
        if w.openRisks > 0 { blockers := blockers + [LegacyBlocker(RiskFindings)]; }
        if w.missingControls > 0 { blockers := blockers + [LegacyBlocker(ControlAssessments)]; }
        if w.openChanges > 0 { blockers := blockers + [LegacyBlocker(ChangeEvents)]; }
      }
      assert legacy.Some? ==> blockers == LegacyBlockers(w);
      var found := Evidence(system, OfManifest(manifest), policy.requiredChecks, policy.trustedSources,
                            policy.evidenceMaxAge, w.now);
      if found.gaps != [] || blockers != [] {
        return Done(base.(outcome := if blockers != [] || HasNonpassing(found.gaps) then Deny else Indeterminate,
                          reasons := found.gaps + blockers));
      }
      if NeedsReview(Contents(), system, request, policyId, policy) {
        return Done(base.(outcome := RequiresReview, reasons := [RevisionRequiresReview], evidence := found.refs));
      }
      return Done(base.(outcome := Allow, evidence := found.refs));
    }

    // ----- writes -----

    method SetStateOf(id: Id, state: State, decisionId: Option<Id>, now: Time)
      requires id in records
      modifies this
      ensures Contents() == SetState(old(Contents()), id, state, decisionId, now)
    {
      var r := records[id];
      var decider := r.decisionId;
      if decisionId.Some? { decider := decisionId; }
      records := records[id := r.(state := state, updatedAt := now, audited := false, decisionId := decider)];
    }

    method InsertRecord(id: Id, record: Record) returns (fault: Option<Error>)
      modifies this
      ensures Follows(old(Contents()), TryInsert(old(Contents()), id, record), fault, Contents())
      ensures permits == old(permits) && trail == old(trail)
      ensures records == if fault == None then old(records)[id := record] else old(records)
    {
      if TryInsert(Contents(), id, record).Refused? { return Some(Crash); }
      records := records[id := record];
      return None;
    }

    method RegisterSystem(principal: Id, id: Id, displayName: string, resourceType: string, externalName: string,
                          purpose: string, legacy: Option<string>, w: World) returns (fault: Option<Error>)
      modifies this
      ensures Follows(old(Contents()),
                      SubmitSystem(old(Contents()), principal, id, displayName, resourceType, externalName, purpose,
                                   legacy, w), fault, Contents())
    {
      hide FiledSystem, TryInsert;
      fault := SourceClosed(Contents(), principal, w);
      if fault.Some? { return; }
      if SystemsWrite !in records[principal].body.scopes { return Some(Forbidden); }
      var place := records[principal].place;
      var key := SystemKey(resourceType, externalName);
      var body := System(displayName, resourceType, externalName, purpose, legacy);
      var filed := FiledSystem(Contents(), principal, key, place);
      if filed == None {
        fault := InsertRecord(id, NewRecord(place, principal, key, Planned, body, Machine(principal), w.now));
        return;
      }
      var r := records[filed.value];
      var changed := r.body.purpose != purpose || r.body.legacy != legacy;
      var state := r.state;
      if changed && r.state != Retired { state := Planned; }
      records := records[filed.value := r.(body := body, state := state, updatedAt := w.now, audited := false)];
      return None;
    }

    method RegisterRevision(principal: Id, id: Id, system: Id, manifest: Manifest, author: Actor, w: World)
      returns (fault: Option<Error>)
      requires IsIntegration(Contents(), principal)
      modifies this
      ensures Follows(old(Contents()),
                      SubmitRevision(old(Contents()), principal, id, system, manifest, author, w), fault, Contents())
    {
      hide Filed, TryInsert;
      fault := SourceFault(Contents(), principal, system, true);
      if fault.Some? { return; }
      fault := ScopeFault(Contents(), principal, RevisionsWrite, system);
      if fault.Some? { return; }
      if records[system].state == Retired { return Some(Conflict); }
      var key := RevisionKey(system, manifest.revision);
      var body := Revision(system, manifest);
      var filed := Filed(Contents(), principal, key);
      if filed.Some? {
        if records[filed.value].body != body { return Some(Conflict); }
        return None;
      }
      fault := InsertRecord(id, NewRecord(records[system].place, principal, key, PendingReview, body, author, w.now));
    }

    method RegisterObservation(principal: Id, id: Id, observation: Body, w: World) returns (fault: Option<Error>)
      requires observation.Observation?
      modifies this
      ensures Follows(old(Contents()),
                      SubmitObservation(old(Contents()), principal, id, observation, w), fault, Contents())
    {
      hide Filed, TryInsert;
      fault := SourceClosed(Contents(), principal, w);
      if fault.Some? { return; }
      fault := SourceFault(Contents(), principal, observation.system, false);
      if fault.Some? { return; }
      fault := ScopeFault(Contents(), principal, ObservationsWrite, observation.system);
      if fault.Some? { return; }
      if observation.observedAt > w.now { return Some(Unprocessable); }
      var key := ObservationKey(observation.system, observation.name);
      var filed := Filed(Contents(), principal, key);
      if filed.Some? {
        if records[filed.value].body != observation { return Some(Conflict); }
        return None;
      }
      fault := InsertRecord(id, NewRecord(records[observation.system].place, principal, key, Recorded, observation,
                                          Machine(principal), w.now));
    }

    /** Each prior policy is superseded in turn. */
    method SupersedePriors(priors: set<Id>, now: Time)
      requires priors <= records.Keys
      modifies this
      ensures Contents() == Supersede(old(Contents()), priors, now)
    {
      ghost var db := Contents();
      var left := priors;
      while left != {}
        invariant left <= priors && records.Keys == db.records.Keys && permits == db.permits && trail == db.trail
        invariant forall i <- records :: records[i] == (if i in priors - left then Supersede(db, priors, now).records[i]
                                                        else db.records[i])
        decreases |left|
      {
        var p := Choose(left);
        SetStateOf(p, Superseded, None, now);
        left := left - {p};
      }
      assert priors - left == priors;
      assert forall i <- records :: records[i] == Supersede(db, priors, now).records[i];
      assert records == Supersede(db, priors, now).records;
    }

    method DecideTarget(actor: string, permitted: bool, id: Id, target: Id, decision: DecisionKind, expected: Body,
                        w: World) returns (fault: Option<Error>)
      modifies this
      ensures Follows(old(Contents()),
                      Decide(old(Contents()), actor, permitted, id, target, decision, expected, w), fault, Contents())
    {
      hide Supersede, Priors, TryInsert, Evaluate, UntrustedSource, Terminal;
      if target !in records { return Some(NotFound); }
      var r := records[target];
      if !Decides(decision, r.body) { return Some(Unprocessable); }
      if !permitted { return Some(Forbidden); }
      if r.body != expected { return Some(Conflict); }
      if decision == ApproveSystem && r.body.purpose == "" { return Some(Conflict); }
      if r.createdBy == Human(actor) { return Some(Forbidden); }
      if Terminal(r, decision) { return Some(Conflict); }
      if r.body.Revision? {
        if !IsIntegration(Contents(), r.integration) { return Some(NotFound); }
        var current := EvaluateRequest(r.integration, Request(target, Release, None), w);
        if current.Refused? { return Some(current.error); }
        if (current.value.outcome != Allow && current.value.outcome != RequiresReview)
           || (current.value.reasons != [] && current.value.reasons != [RevisionRequiresReview])
        {
          return Some(Conflict);
        }
      }
      if r.body.RuntimePolicy? {
        fault := UntrustedSource(Contents(), r.body.policy.trustedSources, target);
        if fault.Some? { return; }
      }
      assert DecisionFault(Contents(), actor, permitted, target, decision, expected, w) == None;
      fault := FileDecision(actor, id, target, decision, w.now);
    }

    /** The writes of a decision; a failing insert rolls the superseding back. */
    method FileDecision(actor: string, id: Id, target: Id, decision: DecisionKind, now: Time) returns (fault: Option<Error>)
      requires target in records
      modifies this
      ensures var db := old(Contents());
        var r := db.records[target];
        var minutes := NewRecord(r.place, NOBODY, Fresh(id), Recorded,
                                 Decision(SystemOf(r.body, target), target, decision, r.body), Human(actor), now);
        var filed := TryInsert(Supersede(db, Priors(db, target), now), id, minutes);
        Follows(old(Contents()), if filed.Refused? then filed
                else Done(SetState(filed.value, target, Decided(decision), Some(id), now)), fault, Contents())
    {
      var before := records;
      var r := records[target];
      var priors := Priors(Contents(), target);
      SupersedePriors(priors, now);
      var minutes := NewRecord(r.place, NOBODY, Fresh(id), Recorded,
                               Decision(SystemOf(r.body, target), target, decision, r.body), Human(actor), now);
      fault := InsertRecord(id, minutes);
      if fault.Some? { records := before; return; }
      SetStateOf(target, Decided(decision), Some(id), now);
    }

    // ----- permits -----

    method IssueAuthorization(principal: Id, id: Id, token: string, request: Request, w: World)
      returns (fault: Option<Error>)
      modifies this
      ensures Follows(old(Contents()), Issue(old(Contents()), principal, id, token, request, w), fault, Contents())
    {
      hide TryInsert, Eligible;
      fault := SourceClosed(Contents(), principal, w);
      if fault.Some? { return; }
      if AuthorizationsRequest !in records[principal].body.scopes { return Some(Forbidden); }
      var answer := EvaluateRequest(principal, request, w);
      if answer.Refused? { return Some(answer.error); }
      assert IsRevision(Contents(), request.revision);
      var before := records;
      var verdict := answer.value;
      var revision := records[request.revision].body;
      fault := InsertRecord(id, NewRecord(records[principal].place, principal, Fresh(id), Evaluated(verdict.outcome),
                                          Authorization(revision.system, request.revision, OfManifest(revision.manifest),
                                                        verdict.policyId, verdict.outcome, request),
                                          Machine(principal), w.now));
      if fault.Some? || verdict.outcome != Allow { return; }
      if verdict.policyId == None || verdict.policyId.value !in before
         || !before[verdict.policyId.value].body.RuntimePolicy?
      {
        records := before;
        return Some(NotFound);
      }
      var expires := w.now + before[verdict.policyId.value].body.policy.permitTtl;
      permits := permits[token := Permit(id, expires, None)];
    }

    method ConsumeAuthorization(principal: Id, token: string, request: Request, w: World) returns (fault: Option<Error>)
      modifies this
      ensures Follows(old(Contents()), Consume(old(Contents()), principal, token, request, w), fault, Contents())
    {
      hide Evaluate, Eligible;
      fault := SourceClosed(Contents(), principal, w);
      if fault.Some? { return; }
      if AuthorizationsRequest !in records[principal].body.scopes { return Some(Forbidden); }
      if token !in permits { return Some(NotFound); }
      var permit := permits[token];
      if permit.grant !in records || !records[permit.grant].body.Authorization? { return Some(NotFound); }
      var grant := records[permit.grant];
      if grant.integration != principal { return Some(NotFound); }
      if !grant.audited { return Some(Conflict); }
      if permit.consumedAt.Some? || permit.expiresAt <= w.now { return Some(Conflict); }
      if OfRequest(request) != OfRequest(grant.body.request) { return Some(Conflict); }
      var current := EvaluateRequest(principal, request, w);
      if current.Refused? { return Some(current.error); }
      if current.value.outcome != Allow || current.value.policyId != grant.body.policyId { return Some(Conflict); }
      permits := permits[token := permit.(consumedAt := Some(w.now))];
      SetStateOf(permit.grant, Consumed, None, w.now);
      return None;
    }

    // ----- receipts -----

    method FileReceipt(principal: Id, id: Id, authorization: Id, executed: bool, evidenceRef: string, w: World)
      returns (fault: Option<Error>)
      modifies this
      ensures Follows(old(Contents()),
                      RecordReceipt(old(Contents()), principal, id, authorization, executed, evidenceRef, w),
                      fault, Contents())
    {
      hide FiledReceipt, TryInsert;
      fault := SourceClosed(Contents(), principal, w);
      if fault.Some? { return; }
      if ReceiptsWrite !in records[principal].body.scopes { return Some(Forbidden); }
      if authorization !in records || !records[authorization].body.Authorization? { return Some(NotFound); }
      var grant := records[authorization];
      if grant.integration != principal || grant.state != Consumed || !grant.audited { return Some(Conflict); }
      var filed := FiledReceipt(Contents(), authorization);
      if filed.Some? {
        var earlier := records[filed.value].body;
        if earlier.authorization != authorization || earlier.executed != executed || earlier.evidenceRef != evidenceRef {
          return Some(Conflict);
        }
        return None;
      }
      var purpose := grant.body.request.purpose;
      var state := FailedState;
      if executed { state := if purpose == Release then ReportedExecuted else VerificationPending; }
      fault := InsertRecord(id, NewRecord(grant.place, principal, ReceiptKey(authorization), state,
                                          Receipt(grant.body.system, authorization, executed, evidenceRef, w.now,
                                                  grant.body.revision, grant.body.policyId, purpose),
                                          Machine(principal), w.now));
    }

    /** The checks against the grant, its policy and the executor's capability. */
    method CheckVerification(principal: Id, receiptId: Id, observationId: Id, w: World) returns (fault: Option<Error>)
      requires SourceClosed(Contents(), principal, w) == None
      requires ObservationsWrite in records[principal].body.scopes
      requires receiptId in records && records[receiptId].body.Receipt?
      requires ScopeFault(Contents(), principal, ObservationsWrite, receiptId) == None
      requires records[receiptId].audited && records[receiptId].state == VerificationPending
      requires observationId in records && records[observationId].body.Observation? && records[observationId].audited
      requires records[receiptId].integration != principal && records[observationId].integration == principal
      ensures fault == VerificationFault(Contents(), principal, receiptId, observationId, w)
    {
      var receipt, observation := records[receiptId], records[observationId].body;
      if receipt.body.authorization !in records || !records[receipt.body.authorization].body.Authorization? {
        return Some(NotFound);
      }
      var grant := records[receipt.body.authorization].body;
      if grant.policyId == None || grant.policyId.value !in records
         || !records[grant.policyId.value].body.RuntimePolicy?
      {
        return Some(NotFound);
      }
      var policy := records[grant.policyId.value].body.policy;
      if principal !in policy.trustedSources { return Some(Forbidden); }
      if grant.request.action == None { return Some(Conflict); }
      if !IsIntegration(Contents(), receipt.integration) { return Some(NotFound); }
      var capability := FirstCapability(records[receipt.integration].body.capabilities,
                                        grant.request.action.value.capability);
      if capability == None { return Some(Crash); }
      if observation.system != receipt.body.system || observation.revisionDigest != grant.manifestDigest
         || observation.check != capability.value.verificationCheck
         || observation.actionDigest != Some(OfRequest(grant.request))
         || observation.resource != Some(grant.request.action.value.resource)
      {
        return Some(Conflict);
      }
      if observation.observedAt < receipt.body.verificationAfter
         || w.now - observation.observedAt > policy.evidenceMaxAge
      {
        return Some(Conflict);
      }
      return None;
    }

    method Verify(principal: Id, id: Id, receiptId: Id, observationId: Id, w: World) returns (fault: Option<Error>)
      requires id !in records
      modifies this
      ensures Follows(old(Contents()),
                      VerifyReceipt(old(Contents()), principal, id, receiptId, observationId, w), fault, Contents())
    {
      hide TryInsert;
      fault := SourceClosed(Contents(), principal, w);
      if fault.Some? { return; }
      if ObservationsWrite !in records[principal].body.scopes { return Some(Forbidden); }
      if receiptId !in records || !records[receiptId].body.Receipt? { return Some(NotFound); }
      fault := ScopeFault(Contents(), principal, ObservationsWrite, receiptId);
      if fault.Some? { return; }
      var receipt := records[receiptId];
      if !receipt.audited { return Some(Conflict); }
      if receipt.state != VerificationPending { return Some(Conflict); }
      if observationId !in records || !records[observationId].body.Observation? { return Some(NotFound); }
      if !records[observationId].audited { return Some(Conflict); }
      if receipt.integration == principal || records[observationId].integration != principal { return Some(Forbidden); }
      fault := CheckVerification(principal, receiptId, observationId, w);
      if fault.Some? { return; }
      assert VerificationFault(Contents(), principal, receiptId, observationId, w) == None;
      hide VerificationFault;
      var observation := records[observationId].body;
      fault := InsertRecord(id, NewRecord(receipt.place, principal, VerificationKey(receiptId), Recorded,
                                          Verification(receipt.body.system, receiptId, observationId),
                                          Machine(principal), w.now));
      if fault.Some? { return; }
      SetStateOf(receiptId, if observation.result == Passing then Verified else FailedState, None, w.now);
    }

    // ----- anchoring -----

    /** `audit`: append what was seen to the chained log, then mark it anchored if it still stands. */
    method Audit(id: Id, seen: Record) returns (fault: Option<Error>)
      modifies this
      ensures var logged := Append(old(Contents()), id, seen).value;
        match Anchor(logged, id, seen)
        case Done(next) => fault == None && Contents() == next
        case Refused(error) => fault == Some(error) && Contents() == logged
    {
      trail := trail + {EntryOf(id, seen)};
      if id in records && records[id].state == seen.state && records[id].updatedAt == seen.updatedAt
         && records[id].body == seen.body && records[id].decisionId == seen.decisionId
      {
        records := records[id := records[id].(audited := true)];
        return None;
      }
      return Some(Conflict);
    }
  }
}
