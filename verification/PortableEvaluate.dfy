/** `evaluate` (services/portable.py): the check every issue, consumption and revision approval goes
    through, against a declarative account of when it allows. */
module PortableEvaluate {

  import opened Common
  import opened PortableRecords

  datatype Error = NotFound | Forbidden | Unprocessable | Conflict | Crash

  datatype Answer<T> = Done(value: T) | Refused(error: Error)

  datatype Table = RiskFindings | ControlAssessments | ChangeEvents

  datatype Reason =
    | ExecutorInactive | ExecutorAuditPending | SystemIs(state: State) | GovernanceAuditPending
    | NoActivePolicy | OutsideModels | OutsideTools | OutsideResources | AutonomyExceedsPolicy
    | ExternalActionNotAllowed | HumanCheckpointRequired | ActionNotAllowed | ResourceNotAllowed
    | ParametersNotPreapproved | InvalidParameters | InvalidParameterValues(names: set<string>)
    | PendingLegacyEvidence | LegacyBlocker(table: Table) | MissingEvidence(check: string)
    | PendingEvidenceAudit(check: string) | StaleEvidence(check: string) | UnknownEvidence(check: string)
    | NonpassingEvidence(check: string) | RevisionRequiresReview

  datatype Verdict = Verdict(outcome: Outcome, reasons: seq<Reason>, policyId: Option<Id>, evidence: seq<Id>)

  /** What one transaction sees from outside the portable store: the clock, the organization's switch,
      the tenant's unfolded backlog and the open legacy work of the system's bound application. */
  datatype World = World(now: Time, organizationActive: bool, unfolded: nat, openRisks: nat,
                         missingControls: nat, openChanges: nat)

  predicate IsIntegration(db: Db, id: Id) {
    id in db.records && db.records[id].body.Integration?
  }

  predicate IsSystem(db: Db, id: Id) {
    id in db.records && db.records[id].body.System?
  }

  predicate IsRevision(db: Db, id: Id) {
    id in db.records && db.records[id].body.Revision?
  }

  // ----- who may ask -----

  /** `principal_scope` with a target. */
  function ScopeFault(db: Db, principal: Id, scope: AccessScope, target: Id): Option<Error>
    requires IsIntegration(db, principal) && target in db.records
  {
    if scope !in db.records[principal].body.scopes then Some(Forbidden)
    else if db.records[target].place != db.records[principal].place then Some(NotFound)
    else None
  }

  /** `system_for_source`. */
  function SourceFault(db: Db, principal: Id, system: Id, owner: bool): Option<Error>
    requires IsIntegration(db, principal)
  {
    if !IsSystem(db, system) then Some(NotFound)
    else
      var fault := ScopeFault(db, principal, SystemsRead, system);
      if fault.Some? then fault
      else if owner && db.records[system].integration != principal then Some(Forbidden)
      else None
  }

  // ----- the manifest against the policy -----

  function ManifestBlockers(manifest: Manifest, policy: Policy): seq<Reason> {
    var b := When([], !(manifest.models <= policy.models), OutsideModels);
    var b := When(b, !(manifest.tools <= policy.tools), OutsideTools);
    var b := When(b, !(manifest.resources <= policy.resources), OutsideResources);
    var b := When(b, manifest.autonomy > policy.maxAutonomy, AutonomyExceedsPolicy);
    var b := When(b, manifest.externalAction && !policy.allowExternalAction, ExternalActionNotAllowed);
    When(b, (|| policy.requireHumanCheckpoint
             || (manifest.untrustedInput && manifest.sensitiveData && manifest.externalAction))
            && !manifest.humanCheckpoint, HumanCheckpointRequired)
  }

  predicate WithinPolicy(manifest: Manifest, policy: Policy) {
    && manifest.models <= policy.models && manifest.tools <= policy.tools
    && manifest.resources <= policy.resources
    && manifest.autonomy <= policy.maxAutonomy
    && (manifest.externalAction ==> policy.allowExternalAction)
    && (policy.requireHumanCheckpoint ==> manifest.humanCheckpoint)
    && (manifest.untrustedInput && manifest.sensitiveData && manifest.externalAction ==> manifest.humanCheckpoint)
  }

  // ----- the action against the capability -----

  /** The name-indexed table of capabilities: the last of a name wins. */
  function CapabilityOf(capabilities: seq<Capability>, name: string): (c: Option<Capability>)
    ensures c.Some? <==> exists i :: 0 <= i < |capabilities| && capabilities[i].name == name
    ensures c.Some? ==> c.value in capabilities && c.value.name == name
  {
    if capabilities == [] then None
    else
      var last := capabilities[|capabilities| - 1];
      if last.name == name then Some(last) else CapabilityOf(capabilities[..|capabilities| - 1], name)
  }

  function BadParameters(parameters: map<string, Json>, types: map<string, ParameterType>): set<string> {
    set k | k in parameters && !(k in types && HasType(parameters[k], types[k]))
  }

  function ActionBlockers(action: Action, purpose: Purpose, capabilities: seq<Capability>, manifest: Manifest,
                          policy: Policy): seq<Reason>
  {
    var capability := CapabilityOf(capabilities, action.capability);
    var permitted := if purpose == Remediation then policy.remediationActions else policy.actions;
    var preapproved := if action.capability in policy.actionParameters then policy.actionParameters[action.capability]
                       else map[];
    var b := When([], action.capability !in permitted || capability == None, ActionNotAllowed);
    var b := When(b, action.resource !in policy.resources || action.resource !in manifest.resources, ResourceNotAllowed);
    var b := When(b, purpose == Remediation && NormalAll(action.parameters) != NormalAll(preapproved),
                  ParametersNotPreapproved);
    if capability == None then b
    else
      var types := capability.value.parameterTypes;
      var bad := BadParameters(action.parameters, types);
      var b := When(b, action.parameters.Keys != types.Keys, InvalidParameters);
      When(b, bad != {}, InvalidParameterValues(bad))
  }

  /** The action is listed, its resource is both allowed and declared, and its parameters are exactly
      those the capability declares, each of its type; a remediation also repeats the approved values. */
  predicate ActionPermitted(action: Action, purpose: Purpose, capabilities: seq<Capability>, manifest: Manifest,
                            policy: Policy)
  {
    var capability := CapabilityOf(capabilities, action.capability);
    && capability.Some?
    && action.capability in (if purpose == Remediation then policy.remediationActions else policy.actions)
    && action.resource in policy.resources && action.resource in manifest.resources
    && action.parameters.Keys == capability.value.parameterTypes.Keys
    && (forall k <- action.parameters :: HasType(action.parameters[k], capability.value.parameterTypes[k]))
    && (purpose == Remediation ==>
          NormalAll(action.parameters)
          == NormalAll(if action.capability in policy.actionParameters
                       then policy.actionParameters[action.capability] else map[]))
  }

  lemma ActionBlockersEmpty(action: Action, purpose: Purpose, capabilities: seq<Capability>, manifest: Manifest,
                            policy: Policy)
    ensures ActionBlockers(action, purpose, capabilities, manifest, policy) == []
            <==> ActionPermitted(action, purpose, capabilities, manifest, policy)
  {
    hide NormalAll, HasType, CapabilityOf;
    var capability := CapabilityOf(capabilities, action.capability);
    if capability.Some? {
      var types := capability.value.parameterTypes;
      assert BadParameters(action.parameters, types) == {} <==>
        (forall k <- action.parameters :: k in types && HasType(action.parameters[k], types[k])) by {
        if k :| k in action.parameters && !(k in types && HasType(action.parameters[k], types[k])) {
          assert k in BadParameters(action.parameters, types);
        }
      }
    }
  }

  // ----- evidence -----

  /** One round of the evidence loop: the gap that blocks, or the observation that establishes. */
  function Gap(db: Db, ids: set<Id>, check: string, age: int, now: Time): Option<Reason>
    requires AreObservations(db, ids)
  {
    var latest := Decisive(db, ids);
    if latest == None then Some(MissingEvidence(check))
    else
      var o := db.records[latest.value];
      if !o.audited then Some(PendingEvidenceAudit(check))
      else if now - o.body.observedAt > age then Some(StaleEvidence(check))
      else if o.body.result == Unknown then Some(UnknownEvidence(check))
      else if o.body.result != Passing then Some(NonpassingEvidence(check))
      else None
  }

  datatype Found = Found(gaps: seq<Reason>, refs: seq<Id>)

  /** `evidence` over the checks in order. */
  function Gather(db: Db, system: Id, digest: Digest, checks: seq<string>, sources: seq<Id>, age: int, now: Time): Found
  {
    if checks == [] then Found([], [])
    else
      var before := Gather(db, system, digest, checks[..|checks| - 1], sources, age, now);
      var check := checks[|checks| - 1];
      var ids := Candidates(db, system, digest, check, sources);
      var gap := Gap(db, ids, check, age, now);
      if gap.Some? then before.(gaps := before.gaps + [gap.value])
      else before.(refs := before.refs + [Decisive(db, ids).value])
  }

  /** A check is established by an audited, fresh, passing observation that no candidate overrides: a
      candidate at a later instant, or a failed or unknown one at the same instant, does. */
  ghost predicate Established(db: Db, system: Id, digest: Digest, check: string, sources: seq<Id>, age: int, now: Time)
  {
    var ids := Candidates(db, system, digest, check, sources);
    exists o <- ids ::
      && db.records[o].audited && db.records[o].body.result == Passing
      && now - db.records[o].body.observedAt <= age
      && (forall c <- ids ::
            || db.records[c].body.observedAt < db.records[o].body.observedAt
            || (db.records[c].body.observedAt == db.records[o].body.observedAt
                && db.records[c].body.result == Passing && (c == o || Newer(db, o, c))))
  }

  lemma NoGapEstablishes(db: Db, system: Id, digest: Digest, check: string, sources: seq<Id>, age: int, now: Time)
    requires Gap(db, Candidates(db, system, digest, check, sources), check, age, now) == None
    ensures Decisive(db, Candidates(db, system, digest, check, sources)).Some?
    ensures Established(db, system, digest, check, sources, age, now)
  {
    var ids := Candidates(db, system, digest, check, sources);
    assert AreObservations(db, ids);
    hide Candidates, Newer;
    var d := Decisive(db, ids).value;
    assert IsDecisive(db, d, ids);
    assert d in ids && db.records[d].audited && db.records[d].body.result == Passing;
  }

  lemma EstablishedLeavesNoGap(db: Db, system: Id, digest: Digest, check: string, sources: seq<Id>, age: int, now: Time)
    requires Established(db, system, digest, check, sources, age, now)
    ensures Gap(db, Candidates(db, system, digest, check, sources), check, age, now) == None
  {
    var ids := Candidates(db, system, digest, check, sources);
    assert AreObservations(db, ids);
    hide Candidates;
    var o :| o in ids && db.records[o].audited && db.records[o].body.result == Passing
      && now - db.records[o].body.observedAt <= age
      && (forall c <- ids ::
          || db.records[c].body.observedAt < db.records[o].body.observedAt
          || (db.records[c].body.observedAt == db.records[o].body.observedAt
              && db.records[c].body.result == Passing && (c == o || Newer(db, o, c))));
    var d := Decisive(db, ids).value;
    assert d == o || Outweighs(db, d, o);
    assert d == o;
  }

  /** No check leaves a gap exactly when each is established; the references then are the decisive
      observations, one per check in order. */
  lemma {:induction false} GatherIsClear(db: Db, system: Id, digest: Digest, checks: seq<string>, sources: seq<Id>,
                                         age: int, now: Time)
    ensures Gather(db, system, digest, checks, sources, age, now).gaps == []
            <==> forall check <- checks :: Established(db, system, digest, check, sources, age, now)
    ensures Gather(db, system, digest, checks, sources, age, now).gaps == []
            ==> var refs := Gather(db, system, digest, checks, sources, age, now).refs;
                && |refs| == |checks|
                && forall i :: 0 <= i < |refs| ==>
                     Some(refs[i]) == Decisive(db, Candidates(db, system, digest, checks[i], sources))
  {
    hide Candidates, Gap, Established, Decisive;
    if checks != [] {
      var n := |checks| - 1;
      GatherIsClear(db, system, digest, checks[..n], sources, age, now);
      if Established(db, system, digest, checks[n], sources, age, now) {
        EstablishedLeavesNoGap(db, system, digest, checks[n], sources, age, now);
      }
      if Gap(db, Candidates(db, system, digest, checks[n], sources), checks[n], age, now) == None {
        NoGapEstablishes(db, system, digest, checks[n], sources, age, now);
      }
      assert checks == checks[..n] + [checks[n]];
      assert forall i :: 0 <= i < n ==> checks[..n][i] == checks[i];
    }
  }

  predicate HasNonpassing(gaps: seq<Reason>) {
    exists g <- gaps :: g.NonpassingEvidence?
  }

  // ----- the evaluation -----

  function LegacyBlockers(w: World): seq<Reason> {
    var b := When([], w.openRisks > 0, LegacyBlocker(RiskFindings));
    var b := When(b, w.missingControls > 0, LegacyBlocker(ControlAssessments));
    When(b, w.openChanges > 0, LegacyBlocker(ChangeEvents))
  }

  /** The revision gate after clean evidence. */
  predicate NeedsReview(db: Db, system: Id, request: Request, policyId: Id, policy: Policy)
    requires request.revision in db.records
  {
    db.records[request.revision].state != Approved
    && !(policy.allowRoutineReleases
         && (request.purpose == Release || ReleaseWasExecuted(db, system, request.revision, policyId)))
  }

  /** The part of `evaluate` after the governance records are known to be in force. */
  function Judge(db: Db, principal: Id, system: Id, request: Request, policyId: Id, w: World): Answer<Verdict>
    requires IsIntegration(db, principal) && IsSystem(db, system) && IsRevision(db, request.revision)
    requires policyId in db.records && db.records[policyId].body.RuntimePolicy?
  {
    var policy := db.records[policyId].body.policy;
    var manifest := db.records[request.revision].body.manifest;
    var legacy := db.records[system].body.legacy;
    var outside := ManifestBlockers(manifest, policy);
    var verdict := Verdict(Indeterminate, [], Some(policyId), []);
    if outside != [] && request.purpose != Remediation then
      Done(verdict.(outcome := Deny, reasons := outside))
    else if (request.purpose == Release) != (request.action == None) then Refused(Unprocessable)
    else
      var blockers := if request.action == None then []
                      else ActionBlockers(request.action.value, request.purpose,
                                          db.records[principal].body.capabilities, manifest, policy);
      if blockers != [] then Done(verdict.(outcome := Deny, reasons := blockers))
      else if request.purpose == Remediation then Done(verdict.(outcome := Allow))
      else if legacy.Some? && w.unfolded > 0 then Done(verdict.(reasons := [PendingLegacyEvidence]))
      else
        var owed := if legacy.Some? then LegacyBlockers(w) else [];
        var found := Gather(db, system, OfManifest(manifest), policy.requiredChecks, policy.trustedSources,
                            policy.evidenceMaxAge, w.now);
        if found.gaps != [] || owed != [] then
          Done(verdict.(outcome := if owed != [] || HasNonpassing(found.gaps) then Deny else Indeterminate,
                        reasons := found.gaps + owed))
        else if NeedsReview(db, system, request, policyId, policy) then
          Done(verdict.(outcome := RequiresReview, reasons := [RevisionRequiresReview], evidence := found.refs))
        else Done(verdict.(outcome := Allow, evidence := found.refs))
  }

  function Evaluate(db: Db, principal: Id, request: Request, w: World): Answer<Verdict>
    requires IsIntegration(db, principal)
  {
    if !IsRevision(db, request.revision) then Refused(NotFound)
    else
      var revision := db.records[request.revision];
      var system := revision.body.system;
      var fault := SourceFault(db, principal, system, true);
      if fault.Some? then Refused(fault.value)
      else
        var source := db.records[principal];
        var target := db.records[system];
        var policyId := ActivePolicy(db, system);
        var verdict := Verdict(Indeterminate, [], policyId, []);
        if source.state != Active then Done(verdict.(outcome := Deny, reasons := [ExecutorInactive]))
        else if !source.audited then Done(verdict.(reasons := [ExecutorAuditPending]))
        else if target.state != Approved then
          Done(verdict.(outcome := if target.state == Retired then Deny else RequiresReview,
                        reasons := [SystemIs(target.state)]))
        else if !target.audited || !revision.audited || (policyId.Some? && !db.records[policyId.value].audited) then
          Done(verdict.(reasons := [GovernanceAuditPending]))
        else if policyId == None then Done(verdict.(reasons := [NoActivePolicy]))
        else Judge(db, principal, system, request, policyId.value, w)
  }

  predicate Allows(answer: Answer<Verdict>) {
    answer.Done? && answer.value.outcome == Allow
  }

  /** Everything governing the request is in force and anchored in the audit log. */
  predicate InForce(db: Db, principal: Id, revision: Id, policyId: Id)
    requires IsIntegration(db, principal)
  {
    && IsRevision(db, revision)
    && var system := db.records[revision].body.system;
    && IsSystem(db, system)
    && db.records[principal].state == Active && db.records[principal].audited
    && SystemsRead in db.records[principal].body.scopes
    && db.records[system].state == Approved && db.records[system].audited
    && db.records[system].integration == principal && db.records[system].place == db.records[principal].place
    && db.records[revision].audited
    && ActivePolicy(db, system) == Some(policyId) && db.records[policyId].audited
  }

  /** The merits of a request under a policy: what the manifest, the action, the evidence and the
      review state must satisfy. */
  ghost predicate Merits(db: Db, principal: Id, system: Id, request: Request, policyId: Id, w: World)
    requires IsIntegration(db, principal) && IsSystem(db, system) && IsRevision(db, request.revision)
    requires policyId in db.records && db.records[policyId].body.RuntimePolicy?
  {
    var policy := db.records[policyId].body.policy;
    var manifest := db.records[request.revision].body.manifest;
    && (request.purpose == Release <==> request.action == None)
    && (request.action.Some? ==>
          ActionPermitted(request.action.value, request.purpose, db.records[principal].body.capabilities,
                          manifest, policy))
    && (request.purpose != Remediation ==>
          && WithinPolicy(manifest, policy)
          && (db.records[system].body.legacy.Some? ==>
                w.unfolded == 0 && w.openRisks == 0 && w.missingControls == 0 && w.openChanges == 0)
          && (forall check <- policy.requiredChecks ::
                Established(db, system, OfManifest(manifest), check, policy.trustedSources,
                            policy.evidenceMaxAge, w.now))
          && (|| db.records[request.revision].state == Approved
              || (policy.allowRoutineReleases
                  && (request.purpose == Release
                      || ReleaseWasExecuted(db, system, request.revision, policyId)))))
  }

  lemma JudgeAllowsOnMerits(db: Db, principal: Id, system: Id, request: Request, policyId: Id, w: World)
    requires IsIntegration(db, principal) && IsSystem(db, system) && IsRevision(db, request.revision)
    requires policyId in db.records && db.records[policyId].body.RuntimePolicy?
    ensures Allows(Judge(db, principal, system, request, policyId, w))
            <==> Merits(db, principal, system, request, policyId, w)
    ensures Allows(Judge(db, principal, system, request, policyId, w))
            ==> Judge(db, principal, system, request, policyId, w).value.policyId == Some(policyId)
  {
    hide Established, Gather, ReleaseWasExecuted, ActionBlockers, ActionPermitted;
    var policy := db.records[policyId].body.policy;
    var manifest := db.records[request.revision].body.manifest;
    GatherIsClear(db, system, OfManifest(manifest), policy.requiredChecks, policy.trustedSources,
                  policy.evidenceMaxAge, w.now);
    if request.action.Some? {
      ActionBlockersEmpty(request.action.value, request.purpose, db.records[principal].body.capabilities, manifest,
                          policy);
    }
  }

  /** When a request is eligible under a policy: the declarative reading of `evaluate`. */
  ghost predicate Eligible(db: Db, principal: Id, request: Request, policyId: Id, w: World)
    requires IsIntegration(db, principal)
  {
    && InForce(db, principal, request.revision, policyId)
    && Merits(db, principal, db.records[request.revision].body.system, request, policyId, w)
  }

  /** `evaluate` allows a request exactly when it is eligible under some policy, which is the one it names. */
  lemma AllowsExactlyEligible(db: Db, principal: Id, request: Request, w: World)
    requires IsIntegration(db, principal)
    ensures Allows(Evaluate(db, principal, request, w))
            <==> exists policyId :: Eligible(db, principal, request, policyId, w)
    ensures Allows(Evaluate(db, principal, request, w)) ==>
              var named := Evaluate(db, principal, request, w).value.policyId;
              named.Some? && Eligible(db, principal, request, named.value, w)
  {
    hide Judge, Merits;
    if IsRevision(db, request.revision) {
      var system := db.records[request.revision].body.system;
      var active := ActivePolicy(db, system);
      if IsSystem(db, system) && active.Some? {
        JudgeAllowsOnMerits(db, principal, system, request, active.value, w);
        if Allows(Evaluate(db, principal, request, w)) {
          assert Eligible(db, principal, request, active.value, w);
        }
      }
    }
    if policyId :| Eligible(db, principal, request, policyId, w) {
      assert InForce(db, principal, request.revision, policyId);
      var system := db.records[request.revision].body.system;
      assert SourceFault(db, principal, system, true) == None;
      assert Evaluate(db, principal, request, w) == Judge(db, principal, system, request, policyId, w);
    }
  }

  // ----- strictness -----

  /** `q` asks at least as much as `p`: fewer things allowed, fresher and more evidence, no new routine
      releases. The trusted sources and the approved parameter values stay. */
  predicate Stricter(q: Policy, p: Policy) {
    && q.models <= p.models && q.tools <= p.tools && q.resources <= p.resources
    && q.actions <= p.actions && q.remediationActions <= p.remediationActions
    && q.actionParameters == p.actionParameters && q.trustedSources == p.trustedSources
    && q.maxAutonomy <= p.maxAutonomy && q.evidenceMaxAge <= p.evidenceMaxAge
    && (q.allowExternalAction ==> p.allowExternalAction)
    && (p.requireHumanCheckpoint ==> q.requireHumanCheckpoint)
    && (q.allowRoutineReleases ==> p.allowRoutineReleases)
    && (forall check <- p.requiredChecks :: check in q.requiredChecks)
  }

  function WithPolicy(db: Db, policyId: Id, q: Policy): Db
    requires policyId in db.records && db.records[policyId].body.RuntimePolicy?
  {
    db.(records := db.records[policyId := db.records[policyId].(body := db.records[policyId].body.(policy := q))])
  }

  lemma NewestFrame(a: Db, b: Db, ids: set<Id>)
    requires ids <= a.records.Keys && ids <= b.records.Keys
    requires forall id <- ids :: a.records[id].createdAt == b.records[id].createdAt
    ensures Newest(a, ids) == Newest(b, ids)
  {
    if ids != {} {
      var x, y := Newest(a, ids).value, Newest(b, ids).value;
      assert IsNewest(a, x, ids) && IsNewest(b, y, ids);
      NewestUnique(a, x, y, ids);
    }
  }

  /** Another policy text leaves the policy in force, the evidence and the release history as they are. */
  lemma PolicyTextFrame(db: Db, edited: Id, q: Policy, system: Id)
    requires edited in db.records && db.records[edited].body.RuntimePolicy?
    ensures var e := WithPolicy(db, edited, q);
      && ActivePolicy(e, system) == ActivePolicy(db, system)
      && (forall digest, check, sources ::
            Candidates(e, system, digest, check, sources) == Candidates(db, system, digest, check, sources))
      && (forall revision, policyId ::
            ReleaseWasExecuted(e, system, revision, policyId) == ReleaseWasExecuted(db, system, revision, policyId))
  {
    var e := WithPolicy(db, edited, q);
    assert ActivePolicies(e, system) == ActivePolicies(db, system);
    NewestFrame(e, db, ActivePolicies(db, system));
    forall revision, policyId
      ensures ReleaseWasExecuted(e, system, revision, policyId) == ReleaseWasExecuted(db, system, revision, policyId)
    {
      var ids := ReleaseReceipts(db, system, revision, policyId);
      assert ReleaseReceipts(e, system, revision, policyId) == ids;
      NewestFrame(e, db, ids);
    }
  }

  lemma EstablishedInBoth(a: Db, b: Db, system: Id, digest: Digest, check: string, sources: seq<Id>, q: int, p: int,
                          now: Time)
    requires Candidates(a, system, digest, check, sources) == Candidates(b, system, digest, check, sources)
    requires forall id <- Candidates(a, system, digest, check, sources) ::
               id in b.records && id in a.records && a.records[id] == b.records[id]
    requires q <= p && Established(a, system, digest, check, sources, q, now)
    ensures Established(b, system, digest, check, sources, p, now)
  {
    hide Candidates;
    var ids := Candidates(a, system, digest, check, sources);
    var o :| o in ids
      && a.records[o].audited && a.records[o].body.result == Passing
      && now - a.records[o].body.observedAt <= q
      && (forall c <- ids ::
            || a.records[c].body.observedAt < a.records[o].body.observedAt
            || (a.records[c].body.observedAt == a.records[o].body.observedAt
                && a.records[c].body.result == Passing && (c == o || Newer(a, o, c))));
    assert o in Candidates(b, system, digest, check, sources);
    assert forall c <- ids :: Newer(a, o, c) ==> Newer(b, o, c);
  }

  lemma ActionUnderStricter(action: Action, purpose: Purpose, capabilities: seq<Capability>, manifest: Manifest,
                            q: Policy, p: Policy)
    requires Stricter(q, p) && ActionPermitted(action, purpose, capabilities, manifest, q)
    ensures ActionPermitted(action, purpose, capabilities, manifest, p)
  {
  }

  lemma {:induction false} MeritsUnderStricter(db: Db, edited: Id, q: Policy, principal: Id, system: Id,
                                               request: Request, policyId: Id,
                                               w: World)
    requires edited in db.records && db.records[edited].body.RuntimePolicy?
    requires Stricter(q, db.records[edited].body.policy)
    requires IsIntegration(db, principal) && IsSystem(db, system) && IsRevision(db, request.revision)
    requires policyId in db.records && db.records[policyId].body.RuntimePolicy?
    requires Merits(WithPolicy(db, edited, q), principal, system, request, policyId, w)
    ensures Merits(db, principal, system, request, policyId, w)
  {
    var e := WithPolicy(db, edited, q);
    PolicyTextFrame(db, edited, q, system);
    var stricter, policy := e.records[policyId].body.policy, db.records[policyId].body.policy;
    assert Stricter(stricter, policy);
    var manifest := db.records[request.revision].body.manifest;
    hide Established, ActionPermitted, ReleaseWasExecuted, WithPolicy;
    if request.action.Some? {
      ActionUnderStricter(request.action.value, request.purpose, db.records[principal].body.capabilities, manifest,
                          stricter, policy);
    }
    if request.purpose != Remediation {
      forall check | check in policy.requiredChecks
        ensures Established(db, system, OfManifest(manifest), check, policy.trustedSources, policy.evidenceMaxAge, w.now)
      {
        EstablishedInBoth(e, db, system, OfManifest(manifest), check, policy.trustedSources, stricter.evidenceMaxAge,
                          policy.evidenceMaxAge, w.now);
      }
    }
  }

  /** Tightening a policy's text never turns a refusal into an allow. */
  lemma StricterNeverAllowsMore(db: Db, edited: Id, q: Policy, principal: Id, request: Request, w: World)
    requires IsIntegration(db, principal)
    requires edited in db.records && db.records[edited].body.RuntimePolicy?
    requires Stricter(q, db.records[edited].body.policy)
    ensures Allows(Evaluate(WithPolicy(db, edited, q), principal, request, w))
            ==> Allows(Evaluate(db, principal, request, w))
  {
    hide Evaluate, Merits, WithinPolicy, Stricter;
    var e := WithPolicy(db, edited, q);
    AllowsExactlyEligible(e, principal, request, w);
    AllowsExactlyEligible(db, principal, request, w);
    if Allows(Evaluate(e, principal, request, w)) {
      var policyId :| Eligible(e, principal, request, policyId, w);
      var system := db.records[request.revision].body.system;
      PolicyTextFrame(db, edited, q, system);
      MeritsUnderStricter(db, edited, q, principal, system, request, policyId, w);
      assert Eligible(db, principal, request, policyId, w);
    }
  }
}
