/** The four answers of `evaluate` and its refusals (services/portable.py), each exactly when the records,
    their anchors, the policy, the evidence and the legacy work say so, and the reasons it gives. */
module PortableOutcomes {

  import opened Common
  import opened PortableRecords
  import opened PortableEvaluate

  // ----- how far a request gets -----

  /** Revision and system exist, in the executor's place as far as the executor may read systems. */
  predicate Exists(db: Db, principal: Id, request: Request)
    requires IsIntegration(db, principal)
  {
    && IsRevision(db, request.revision)
    && var system := db.records[request.revision].body.system;
    && IsSystem(db, system)
    && (SystemsRead in db.records[principal].body.scopes ==> db.records[system].place == db.records[principal].place)
  }

  /** The executor may ask about its own revision of its own system, in its own place. */
  predicate MayAsk(db: Db, principal: Id, request: Request)
    requires IsIntegration(db, principal)
  {
    && IsRevision(db, request.revision)
    && var system := db.records[request.revision].body.system;
    && IsSystem(db, system) && SystemsRead in db.records[principal].body.scopes
    && db.records[system].place == db.records[principal].place && db.records[system].integration == principal
  }

  /** ... and is live and anchored. */
  predicate ExecutorReady(db: Db, principal: Id, request: Request)
    requires IsIntegration(db, principal)
  {
    MayAsk(db, principal, request) && db.records[principal].state == Active && db.records[principal].audited
  }

  function TargetOf(db: Db, request: Request): Record
    requires IsRevision(db, request.revision) && IsSystem(db, db.records[request.revision].body.system)
  {
    db.records[db.records[request.revision].body.system]
  }

  predicate SystemApproved(db: Db, principal: Id, request: Request)
    requires IsIntegration(db, principal)
  {
    ExecutorReady(db, principal, request) && TargetOf(db, request).state == Approved
  }

  /** The policy in force for the request's system. */
  function PolicyOf(db: Db, request: Request): Option<Id>
    requires IsRevision(db, request.revision)
  {
    ActivePolicy(db, db.records[request.revision].body.system)
  }

  /** System, revision and policy are anchored in the audit log. */
  predicate Anchored(db: Db, request: Request)
    requires IsRevision(db, request.revision) && IsSystem(db, db.records[request.revision].body.system)
  {
    && TargetOf(db, request).audited && db.records[request.revision].audited
    && (PolicyOf(db, request).Some? ==> db.records[PolicyOf(db, request).value].audited)
  }

  predicate Governed(db: Db, principal: Id, request: Request)
    requires IsIntegration(db, principal)
  {
    SystemApproved(db, principal, request) && Anchored(db, request) && PolicyOf(db, request).Some?
  }

  function Rules(db: Db, request: Request): Policy
    requires IsRevision(db, request.revision) && PolicyOf(db, request).Some?
  {
    db.records[PolicyOf(db, request).value].body.policy
  }

  /** ... and the manifest is within the policy, which a remediation need not be. */
  predicate InBounds(db: Db, principal: Id, request: Request)
    requires IsIntegration(db, principal)
  {
    && Governed(db, principal, request)
    && (request.purpose == Remediation
        || WithinPolicy(db.records[request.revision].body.manifest, Rules(db, request)))
  }

  /** A release names no action; anything else names one. */
  predicate WellFormed(request: Request) {
    request.action.None? <==> request.purpose == Release
  }

  predicate Permitted(db: Db, principal: Id, request: Request)
    requires IsIntegration(db, principal)
  {
    && InBounds(db, principal, request) && WellFormed(request)
    && (request.action.Some? ==>
          ActionPermitted(request.action.value, request.purpose, db.records[principal].body.capabilities,
                          db.records[request.revision].body.manifest, Rules(db, request)))
  }

  /** A release or runtime request whose legacy evidence, if it depends on any, is folded. */
  predicate Examined(db: Db, principal: Id, request: Request, w: World)
    requires IsIntegration(db, principal)
  {
    && Permitted(db, principal, request) && request.purpose != Remediation
    && (TargetOf(db, request).body.legacy.Some? ==> w.unfolded == 0)
  }

  predicate OwesLegacyWork(db: Db, request: Request, w: World)
    requires IsRevision(db, request.revision) && IsSystem(db, db.records[request.revision].body.system)
  {
    TargetOf(db, request).body.legacy.Some? && (w.openRisks > 0 || w.missingControls > 0 || w.openChanges > 0)
  }

  /** An observation of a check about the request's revision, by a trusted and still active source. */
  predicate Informs(db: Db, o: Id, request: Request, check: string)
    requires IsRevision(db, request.revision) && PolicyOf(db, request).Some?
  {
    && o in db.records && db.records[o].body.Observation?
    && var body, source := db.records[o].body, db.records[o].integration;
    && body.system == db.records[request.revision].body.system && body.check == check
    && body.revisionDigest == OfManifest(db.records[request.revision].body.manifest)
    && source in Rules(db, request).trustedSources && IsIntegration(db, source) && db.records[source].state == Active
  }

  /** The observation that decides the check, if any. */
  function Voice(db: Db, request: Request, check: string): Option<Id>
    requires IsRevision(db, request.revision) && PolicyOf(db, request).Some?
  {
    var revision := db.records[request.revision].body;
    Decisive(db, Candidates(db, revision.system, OfManifest(revision.manifest), check,
                            Rules(db, request).trustedSources))
  }

  /** It speaks of the check, it is the latest that does, and of those at its instant none is worse; and
      there is none exactly when no observation speaks of the check. */
  lemma VoiceIsLatestAndWorst(db: Db, request: Request, check: string)
    requires IsRevision(db, request.revision) && PolicyOf(db, request).Some?
    ensures var o := Voice(db, request, check);
      && (o == None <==> forall id :: !Informs(db, id, request, check))
      && (o.Some? ==>
            && Informs(db, o.value, request, check)
            && forall id | Informs(db, id, request, check) ::
                 var x, y := db.records[o.value].body, db.records[id].body;
                 || y.observedAt < x.observedAt
                 || (y.observedAt == x.observedAt && (x.result == Failed || y.result == Passing || x.result == y.result)))
  {
    hide Rules, PolicyOf;
    var revision, sources := db.records[request.revision].body, Rules(db, request).trustedSources;
    var ids := Candidates(db, revision.system, OfManifest(revision.manifest), check, sources);
    assert forall id :: id in ids <==> Informs(db, id, request, check);
    hide Candidates, Informs, Decisive;
    forall id | id in ids
      ensures var d := Decisive(db, ids);
        && d.Some? && d.value in ids
        && var x, y := db.records[d.value].body, db.records[id].body;
        || y.observedAt < x.observedAt
        || (y.observedAt == x.observedAt && (x.result == Failed || y.result == Passing || x.result == y.result))
    {
      DecisiveIsLatestAndWorst(db, ids, id);
    }
  }

  /** What the deciding observation of a check makes of it. */
  datatype Finding = Missing | Unanchored | Stale | IsUnknown | Fails | Passes

  function FindingOf(db: Db, request: Request, check: string, now: Time): Finding
    requires IsRevision(db, request.revision) && PolicyOf(db, request).Some?
  {
    var o := Voice(db, request, check);
    if o == None then Missing
    else
      var r := db.records[o.value];
      if !r.audited then Unanchored
      else if now - r.body.observedAt > Rules(db, request).evidenceMaxAge then Stale
      else match r.body.result
        case Unknown => IsUnknown
        case Failed => Fails
        case Passing => Passes
  }

  predicate AnyCheck(db: Db, request: Request, f: Finding, now: Time)
    requires IsRevision(db, request.revision) && PolicyOf(db, request).Some?
  {
    exists check <- Rules(db, request).requiredChecks :: FindingOf(db, request, check, now) == f
  }

  predicate AllPass(db: Db, request: Request, now: Time)
    requires IsRevision(db, request.revision) && PolicyOf(db, request).Some?
  {
    forall check <- Rules(db, request).requiredChecks :: FindingOf(db, request, check, now) == Passes
  }

  /** A receipt for a release of the request's revision under the policy in force. */
  predicate IsRelease(db: Db, r: Id, request: Request)
    requires IsRevision(db, request.revision) && PolicyOf(db, request).Some?
  {
    && r in db.records && db.records[r].body.Receipt?
    && var body := db.records[r].body;
    && body.purposeOf == Release && body.revision == request.revision
    && body.system == db.records[request.revision].body.system && body.policyId == PolicyOf(db, request)
  }

  /** The latest of them, by the smaller id where several were filed at once, is anchored and reports the
      release executed. */
  ghost predicate LastReleaseHappened(db: Db, request: Request)
    requires IsRevision(db, request.revision) && PolicyOf(db, request).Some?
  {
    exists r <- db.records ::
      && IsRelease(db, r, request) && db.records[r].audited && db.records[r].body.executed
      && forall other <- db.records | IsRelease(db, other, request) ::
           || db.records[other].createdAt < db.records[r].createdAt
           || (db.records[other].createdAt == db.records[r].createdAt && r <= other)
  }

  lemma LastReleaseIsNewest(db: Db, request: Request)
    requires IsRevision(db, request.revision) && PolicyOf(db, request).Some?
    ensures ReleaseWasExecuted(db, db.records[request.revision].body.system, request.revision,
                               PolicyOf(db, request).value)
            <==> LastReleaseHappened(db, request)
  {
    hide PolicyOf;
    var ids := ReleaseReceipts(db, db.records[request.revision].body.system, request.revision,
                               PolicyOf(db, request).value);
    assert forall r :: r in ids <==> IsRelease(db, r, request);
    hide ReleaseReceipts, IsRelease;
    var newest := Newest(db, ids);
    if newest.Some? {
      assert forall r <- ids :: r == newest.value || Newer(db, newest.value, r);
    }
  }

  /** An unapproved revision goes out unreviewed only as a routine release, or after one was executed. */
  ghost predicate Routine(db: Db, request: Request)
    requires IsRevision(db, request.revision) && PolicyOf(db, request).Some?
  {
    && Rules(db, request).allowRoutineReleases
    && (request.purpose == Release || LastReleaseHappened(db, request))
  }

  // ----- the four answers -----

  ghost predicate Denies(db: Db, principal: Id, request: Request, w: World)
    requires IsIntegration(db, principal)
  {
    || (MayAsk(db, principal, request) && db.records[principal].state != Active)
    || (ExecutorReady(db, principal, request) && TargetOf(db, request).state == Retired)
    || (Governed(db, principal, request) && !InBounds(db, principal, request))
    || (InBounds(db, principal, request) && WellFormed(request) && !Permitted(db, principal, request))
    || (Examined(db, principal, request, w)
        && (OwesLegacyWork(db, request, w) || AnyCheck(db, request, Fails, w.now)))
  }

  ghost predicate AsksForReview(db: Db, principal: Id, request: Request, w: World)
    requires IsIntegration(db, principal)
  {
    || (ExecutorReady(db, principal, request) && TargetOf(db, request).state !in {Approved, Retired})
    || (Examined(db, principal, request, w) && !OwesLegacyWork(db, request, w) && AllPass(db, request, w.now)
        && db.records[request.revision].state != Approved && !Routine(db, request))
  }

  ghost predicate CannotTell(db: Db, principal: Id, request: Request, w: World)
    requires IsIntegration(db, principal)
  {
    || (MayAsk(db, principal, request) && db.records[principal].state == Active && !db.records[principal].audited)
    || (SystemApproved(db, principal, request) && (!Anchored(db, request) || PolicyOf(db, request) == None))
    || (Permitted(db, principal, request) && request.purpose != Remediation && !Examined(db, principal, request, w))
    || (Examined(db, principal, request, w) && !OwesLegacyWork(db, request, w)
        && !AllPass(db, request, w.now) && !AnyCheck(db, request, Fails, w.now))
  }

  ghost predicate Permits(db: Db, principal: Id, request: Request, w: World)
    requires IsIntegration(db, principal)
  {
    || (Permitted(db, principal, request) && request.purpose == Remediation)
    || (Examined(db, principal, request, w) && !OwesLegacyWork(db, request, w) && AllPass(db, request, w.now)
        && (db.records[request.revision].state == Approved || Routine(db, request)))
  }

  function Answered(answer: Answer<Verdict>): Option<Outcome> {
    if answer.Done? then Some(answer.value.outcome) else None
  }

  // ----- the evidence loop against the findings -----

  /** The gap a check leaves. */
  function GapOn(db: Db, system: Id, digest: Digest, check: string, sources: seq<Id>, age: int, now: Time):
      Option<Reason>
  {
    Gap(db, Candidates(db, system, digest, check, sources), check, age, now)
  }

  predicate Leaves(db: Db, system: Id, digest: Digest, check: string, sources: seq<Id>, age: int, now: Time, r: Reason)
  {
    GapOn(db, system, digest, check, sources, age, now) == Some(r)
  }

  /** The gaps of some checks are those of each. */
  lemma {:induction false} GapsOfEach(db: Db, system: Id, digest: Digest, checks: seq<string>, sources: seq<Id>,
                                      age: int, now: Time, r: Reason)
    ensures r in Gather(db, system, digest, checks, sources, age, now).gaps
            <==> exists check <- checks :: Leaves(db, system, digest, check, sources, age, now, r)
  {
    hide Candidates, Gap;
    if checks != [] {
      var n := |checks| - 1;
      GapsOfEach(db, system, digest, checks[..n], sources, age, now, r);
      var gap := GapOn(db, system, digest, checks[n], sources, age, now);
      assert Gather(db, system, digest, checks, sources, age, now).gaps
          == Gather(db, system, digest, checks[..n], sources, age, now).gaps + if gap.Some? then [gap.value] else [];
      assert checks == checks[..n] + [checks[n]];
      assert gap == Some(r) <==> Leaves(db, system, digest, checks[n], sources, age, now, r);
    }
  }

  /** ... for the request under its policy. */
  function GapOf(db: Db, request: Request, check: string, now: Time): Option<Reason>
    requires IsRevision(db, request.revision) && PolicyOf(db, request).Some?
  {
    var rules, revision := Rules(db, request), db.records[request.revision].body;
    GapOn(db, revision.system, OfManifest(revision.manifest), check, rules.trustedSources, rules.evidenceMaxAge, now)
  }

  function GapsOf(db: Db, request: Request, now: Time): seq<Reason>
    requires IsRevision(db, request.revision) && PolicyOf(db, request).Some?
  {
    var rules, revision := Rules(db, request), db.records[request.revision].body;
    Gather(db, revision.system, OfManifest(revision.manifest), rules.requiredChecks, rules.trustedSources,
           rules.evidenceMaxAge, now).gaps
  }

  lemma GapIsFinding(db: Db, request: Request, check: string, now: Time)
    requires IsRevision(db, request.revision) && PolicyOf(db, request).Some?
    ensures GapOf(db, request, check, now)
         == match FindingOf(db, request, check, now)
            case Missing => Some(MissingEvidence(check))
            case Unanchored => Some(PendingEvidenceAudit(check))
            case Stale => Some(StaleEvidence(check))
            case IsUnknown => Some(UnknownEvidence(check))
            case Fails => Some(NonpassingEvidence(check))
            case Passes => None
  {
    hide Candidates, Decisive;
  }

  lemma GapIsFound(db: Db, request: Request, reason: Reason, now: Time)
    requires IsRevision(db, request.revision) && PolicyOf(db, request).Some?
    ensures reason in GapsOf(db, request, now)
            <==> exists check <- Rules(db, request).requiredChecks :: GapOf(db, request, check, now) == Some(reason)
  {
    hide Gather, GapOn, PolicyOf;
    var rules, revision := Rules(db, request), db.records[request.revision].body;
    GapsOfEach(db, revision.system, OfManifest(revision.manifest), rules.requiredChecks, rules.trustedSources,
               rules.evidenceMaxAge, now, reason);
    forall check
      ensures GapOf(db, request, check, now) == Some(reason)
              <==> Leaves(db, revision.system, OfManifest(revision.manifest), check, rules.trustedSources,
                          rules.evidenceMaxAge, now, reason)
    {
    }
  }

  lemma GapIsGaping(db: Db, request: Request, reason: Reason, now: Time)
    requires IsRevision(db, request.revision) && PolicyOf(db, request).Some?
    ensures reason in GapsOf(db, request, now) <==> Gaping(db, request, reason, now)
    ensures Gaping(db, request, reason, now) ==> OnEvidence(reason)
  {
    hide GapsOf, GapOf, Rules, PolicyOf, FindingOf;
    GapIsFound(db, request, reason, now);
    var checks := Rules(db, request).requiredChecks;
    if check :| check in checks && GapOf(db, request, check, now) == Some(reason) {
      GapIsFinding(db, request, check, now);
    }
    if Gaping(db, request, reason, now) {
      GapIsFinding(db, request, reason.check, now);
      assert reason.check in checks;
    }
  }

  lemma NoGapsExactly(db: Db, request: Request, now: Time)
    requires IsRevision(db, request.revision) && PolicyOf(db, request).Some?
    ensures GapsOf(db, request, now) == [] <==> AllPass(db, request, now)
  {
    hide GapsOf, GapOf, Rules, PolicyOf, FindingOf, AnyCheck;
    var gaps, checks := GapsOf(db, request, now), Rules(db, request).requiredChecks;
    if gaps != [] {
      GapIsGaping(db, request, gaps[0], now);
      assert gaps[0].check in checks;
    }
    if check :| check in checks && FindingOf(db, request, check, now) != Passes {
      GapIsFinding(db, request, check, now);
      GapIsFound(db, request, GapOf(db, request, check, now).value, now);
    }
  }

  lemma NonpassingExactly(db: Db, request: Request, now: Time)
    requires IsRevision(db, request.revision) && PolicyOf(db, request).Some?
    ensures HasNonpassing(GapsOf(db, request, now)) <==> AnyCheck(db, request, Fails, now)
  {
    hide GapsOf, GapOf, Rules, PolicyOf, FindingOf, AllPass;
    var gaps, checks := GapsOf(db, request, now), Rules(db, request).requiredChecks;
    if g :| g in gaps && g.NonpassingEvidence? {
      GapIsGaping(db, request, g, now);
      assert g.check in checks;
    }
    if check :| check in checks && FindingOf(db, request, check, now) == Fails {
      GapIsGaping(db, request, NonpassingEvidence(check), now);
      assert Gaping(db, request, NonpassingEvidence(check), now);
    }
  }

  predicate Finds(db: Db, request: Request, check: string, f: Finding, now: Time)
    requires IsRevision(db, request.revision) && PolicyOf(db, request).Some?
  {
    check in Rules(db, request).requiredChecks && FindingOf(db, request, check, now) == f
  }

  /** What a reason finds fault with in the evidence. */
  predicate Gaping(db: Db, request: Request, reason: Reason, now: Time)
    requires IsRevision(db, request.revision) && PolicyOf(db, request).Some?
  {
    match reason
    case MissingEvidence(check) => Finds(db, request, check, Missing, now)
    case PendingEvidenceAudit(check) => Finds(db, request, check, Unanchored, now)
    case StaleEvidence(check) => Finds(db, request, check, Stale, now)
    case UnknownEvidence(check) => Finds(db, request, check, IsUnknown, now)
    case NonpassingEvidence(check) => Finds(db, request, check, Fails, now)
    case _ => false
  }

  // ----- the theorem -----

  lemma JudgedExactly(db: Db, principal: Id, request: Request, w: World)
    requires IsIntegration(db, principal) && Governed(db, principal, request)
    ensures var system, policyId := db.records[request.revision].body.system, PolicyOf(db, request).value;
      var answer := Judge(db, principal, system, request, policyId, w);
      && (answer.Refused? <==> InBounds(db, principal, request) && !WellFormed(request))
      && (answer.Refused? ==> answer.error == Unprocessable)
      && (Answered(answer) == Some(Deny) <==> Denies(db, principal, request, w))
      && (Answered(answer) == Some(RequiresReview) <==> AsksForReview(db, principal, request, w))
      && (Answered(answer) == Some(Indeterminate) <==> CannotTell(db, principal, request, w))
      && (Answered(answer) == Some(Allow) <==> Permits(db, principal, request, w))
  {
    hide Gather, ReleaseWasExecuted, LastReleaseHappened, ActionBlockers, ActionPermitted, ActivePolicy,
         ManifestBlockers, WithinPolicy,
         AllPass, AnyCheck, LegacyBlockers;
    var rules, revision := Rules(db, request), db.records[request.revision].body;
    NoGapsExactly(db, request, w.now);
    NonpassingExactly(db, request, w.now);
    ManifestIsBounded(revision.manifest, rules);
    NoLegacyWork(w);
    LastReleaseIsNewest(db, request);
    if request.action.Some? {
      ActionBlockersEmpty(request.action.value, request.purpose, db.records[principal].body.capabilities,
                          revision.manifest, rules);
    }
  }

  lemma ManifestIsBounded(manifest: Manifest, policy: Policy)
    ensures ManifestBlockers(manifest, policy) == [] <==> WithinPolicy(manifest, policy)
  {
  }

  /** Every answer of `evaluate` is given exactly when its condition holds, and it refuses exactly when the
      executor may not ask or the request is malformed. */
  lemma OutcomesAreExact(db: Db, principal: Id, request: Request, w: World)
    requires IsIntegration(db, principal)
    ensures var answer := Evaluate(db, principal, request, w);
      && (answer == Refused(NotFound) <==> !Exists(db, principal, request))
      && (answer == Refused(Forbidden) <==> Exists(db, principal, request) && !MayAsk(db, principal, request))
      && (answer == Refused(Unprocessable) <==> InBounds(db, principal, request) && !WellFormed(request))
      && (answer.Refused? ==> answer.error in {NotFound, Forbidden, Unprocessable})
      && (Answered(answer) == Some(Deny) <==> Denies(db, principal, request, w))
      && (Answered(answer) == Some(RequiresReview) <==> AsksForReview(db, principal, request, w))
      && (Answered(answer) == Some(Indeterminate) <==> CannotTell(db, principal, request, w))
      && (Answered(answer) == Some(Allow) <==> Permits(db, principal, request, w))
  {
    hide Judge, AllPass, AnyCheck, Routine, OwesLegacyWork, Permitted, ActivePolicy;
    if Governed(db, principal, request) {
      JudgedExactly(db, principal, request, w);
    } else {
      UngovernedStaysOut(db, principal, request, w);
    }
  }

  lemma UngovernedStaysOut(db: Db, principal: Id, request: Request, w: World)
    requires IsIntegration(db, principal) && !Governed(db, principal, request)
    ensures !InBounds(db, principal, request) && !Permitted(db, principal, request) && !Examined(db, principal, request, w)
  {
  }

  // ----- the reasons -----

  /** What a manifest does outside the policy. */
  predicate Exceeds(manifest: Manifest, policy: Policy, reason: Reason) {
    match reason
    case OutsideModels => exists x <- manifest.models :: x !in policy.models
    case OutsideTools => exists x <- manifest.tools :: x !in policy.tools
    case OutsideResources => exists x <- manifest.resources :: x !in policy.resources
    case AutonomyExceedsPolicy => manifest.autonomy > policy.maxAutonomy
    case ExternalActionNotAllowed => manifest.externalAction && !policy.allowExternalAction
    case HumanCheckpointRequired =>
      && !manifest.humanCheckpoint
      && (policy.requireHumanCheckpoint
          || (manifest.externalAction && manifest.untrustedInput && manifest.sensitiveData))
    case _ => false
  }

  lemma ManifestReasons(manifest: Manifest, policy: Policy, reason: Reason)
    ensures reason in ManifestBlockers(manifest, policy) <==> Exceeds(manifest, policy, reason)
    ensures Exceeds(manifest, policy, reason) ==> OnManifest(reason)
  {
    InWhen(reason);
    hide When;
  }

  lemma InWhen(reason: Reason)
    ensures forall list, condition, entry :: reason in When(list, condition, entry)
              <==> reason in list || (condition && reason == entry)
  {
  }

  predicate OnEvidence(reason: Reason) {
    || reason.MissingEvidence? || reason.PendingEvidenceAudit? || reason.StaleEvidence? || reason.UnknownEvidence?
    || reason.NonpassingEvidence?
  }

  predicate OnManifest(reason: Reason) {
    || reason.OutsideModels? || reason.OutsideTools? || reason.OutsideResources? || reason.AutonomyExceedsPolicy?
    || reason.ExternalActionNotAllowed? || reason.HumanCheckpointRequired?
  }

  predicate OnAction(reason: Reason) {
    || reason.ActionNotAllowed? || reason.ResourceNotAllowed? || reason.ParametersNotPreapproved?
    || reason.InvalidParameters? || reason.InvalidParameterValues?
  }

  /** A parameter of the given name that the capability declares and that is of the declared type. */
  predicate Fits(action: Action, capability: Capability, name: string)
    requires name in action.parameters
  {
    && name in capability.parameterTypes
    && var value := action.parameters[name];
    match capability.parameterTypes[name]
    case TextType => value.JText? && |value.s| <= 2000
    case BooleanType => value == JBool(true) || value == JBool(false)
    case NumberType => value.JInt? || value.JNumber?
  }

  /** Values that Python's == holds equal. */
  predicate Alike(a: Json, b: Json)
    decreases a
  {
    match a
    case JNull => b.JNull?
    case JText(s) => b == JText(s)
    case JArray(items) =>
      b.JArray? && |items| == |b.items| && forall i :: 0 <= i < |items| ==> Alike(items[i], b.items[i])
    case JObject(members) =>
      b.JObject? && members.Keys == b.members.Keys && forall k <- members :: Alike(members[k], b.members[k])
    case JBool(x) => b == JBool(x) || Counts(b, if x then 1.0 else 0.0)
    case JInt(i) => Counts(b, i as real) || (b.JBool? && i == if b.b then 1 else 0)
    case JNumber(r) => Counts(b, r) || (b.JBool? && r == if b.b then 1.0 else 0.0)
  }

  predicate Counts(j: Json, r: real) {
    (j.JInt? && j.i as real == r) || (j.JNumber? && j.r == r)
  }

  lemma {:induction false} NormalIsAlike(a: Json, b: Json)
    ensures Normal(a) == Normal(b) <==> Alike(a, b)
    decreases a
  {
    if a.JArray? && b.JArray? {
      forall i | 0 <= i < |a.items| && i < |b.items|
        ensures Normal(a.items[i]) == Normal(b.items[i]) <==> Alike(a.items[i], b.items[i])
      {
        NormalIsAlike(a.items[i], b.items[i]);
      }
      var x, y := Normal(a).items, Normal(b).items;
      assert |x| == |a.items| && |y| == |b.items|;
      assert forall i :: 0 <= i < |x| ==> x[i] == Normal(a.items[i]);
      assert forall i :: 0 <= i < |y| ==> y[i] == Normal(b.items[i]);
    } else if a.JObject? && b.JObject? {
      forall k | k in a.members && k in b.members
        ensures Normal(a.members[k]) == Normal(b.members[k]) <==> Alike(a.members[k], b.members[k])
      {
        NormalIsAlike(a.members[k], b.members[k]);
      }
      var x, y := Normal(a).members, Normal(b).members;
      assert x.Keys == a.members.Keys && y.Keys == b.members.Keys;
      assert forall k <- x :: x[k] == Normal(a.members[k]);
      assert forall k <- y :: y[k] == Normal(b.members[k]);
    }
  }

  /** Parameters that equal the preapproved ones, name by name. */
  predicate Preapproved(action: Action, policy: Policy) {
    var given, known := action.parameters, action.capability in policy.actionParameters;
    && given.Keys == (if known then policy.actionParameters[action.capability].Keys else {})
    && (known ==> forall k <- given :: k in policy.actionParameters[action.capability]
                                       && Alike(given[k], policy.actionParameters[action.capability][k]))
  }

  lemma NormalAllIsPreapproved(action: Action, policy: Policy)
    ensures var known := action.capability in policy.actionParameters;
      NormalAll(action.parameters) == NormalAll(if known then policy.actionParameters[action.capability] else map[])
      <==> Preapproved(action, policy)
  {
    var given := action.parameters;
    var known: map<string, Json> := if action.capability in policy.actionParameters
                                    then policy.actionParameters[action.capability] else map[];
    var x, y := NormalAll(given), NormalAll(known);
    assert x.Keys == given.Keys && y.Keys == known.Keys;
    forall k | k in given && k in known
      ensures x[k] == y[k] <==> Alike(given[k], known[k])
    {
      NormalIsAlike(given[k], known[k]);
    }
    if x == y {
      assert x.Keys == y.Keys;
      assert forall k <- given :: k in known && x[k] == y[k];
    }
  }

  /** What is wrong with an action, given the executor's capability of that name, if it has one. */
  predicate Offends(action: Action, purpose: Purpose, capability: Option<Capability>, manifest: Manifest,
                    policy: Policy, reason: Reason)
  {
    match reason
    case ActionNotAllowed =>
      || capability == None
      || (purpose == Remediation && action.capability !in policy.remediationActions)
      || (purpose != Remediation && action.capability !in policy.actions)
    case ResourceNotAllowed => action.resource !in policy.resources || action.resource !in manifest.resources
    case ParametersNotPreapproved => purpose == Remediation && !Preapproved(action, policy)
    case InvalidParameters => capability.Some? && action.parameters.Keys != capability.value.parameterTypes.Keys
    case InvalidParameterValues(names) =>
      && capability.Some? && names != {}
      && names == set k | k in action.parameters && !Fits(action, capability.value, k)
    case _ => false
  }

  lemma ActionReasons(action: Action, purpose: Purpose, capabilities: seq<Capability>, manifest: Manifest,
                      policy: Policy, reason: Reason)
    ensures reason in ActionBlockers(action, purpose, capabilities, manifest, policy)
            <==> Offends(action, purpose, CapabilityOf(capabilities, action.capability), manifest, policy, reason)
    ensures Offends(action, purpose, CapabilityOf(capabilities, action.capability), manifest, policy, reason)
            ==> OnAction(reason)
  {
    hide NormalAll, Preapproved, CapabilityOf, When, HasType, Fits, BadParameters;
    InWhen(reason);
    NormalAllIsPreapproved(action, policy);
    var capability := CapabilityOf(capabilities, action.capability);
    if capability.Some? {
      BadParametersMisfit(action, capability.value);
    }
  }

  lemma BadParametersMisfit(action: Action, capability: Capability)
    ensures BadParameters(action.parameters, capability.parameterTypes)
         == set k | k in action.parameters && !Fits(action, capability, k)
  {
  }

  /** The capability the source finds under a name is the last one the executor registered. */
  lemma {:induction false} LastCapability(capabilities: seq<Capability>, i: nat, name: string)
    requires i < |capabilities| && capabilities[i].name == name
    requires forall j :: i < j < |capabilities| ==> capabilities[j].name != name
    ensures CapabilityOf(capabilities, name) == Some(capabilities[i])
  {
    if i < |capabilities| - 1 {
      LastCapability(capabilities[..|capabilities| - 1], i, name);
    }
  }

  /** The ground of every reason `evaluate` can give. */
  ghost predicate Grounds(db: Db, principal: Id, request: Request, w: World, reason: Reason)
    requires IsIntegration(db, principal)
  {
    match reason
    case ExecutorInactive => MayAsk(db, principal, request) && db.records[principal].state != Active
    case ExecutorAuditPending =>
      MayAsk(db, principal, request) && db.records[principal].state == Active && !db.records[principal].audited
    case SystemIs(state) =>
      ExecutorReady(db, principal, request) && state == TargetOf(db, request).state && state != Approved
    case GovernanceAuditPending => SystemApproved(db, principal, request) && !Anchored(db, request)
    case NoActivePolicy =>
      SystemApproved(db, principal, request) && Anchored(db, request) && PolicyOf(db, request) == None
    case PendingLegacyEvidence =>
      && Permitted(db, principal, request) && request.purpose != Remediation
      && TargetOf(db, request).body.legacy.Some? && w.unfolded > 0
    case LegacyBlocker(table) =>
      && Examined(db, principal, request, w) && TargetOf(db, request).body.legacy.Some?
      && (match table
          case RiskFindings => w.openRisks > 0
          case ControlAssessments => w.missingControls > 0
          case ChangeEvents => w.openChanges > 0)
    case RevisionRequiresReview =>
      && Examined(db, principal, request, w) && !OwesLegacyWork(db, request, w) && AllPass(db, request, w.now)
      && db.records[request.revision].state != Approved && !Routine(db, request)
    case _ =>
      || (Examined(db, principal, request, w) && Gaping(db, request, reason, w.now))
      || (Governed(db, principal, request) && request.purpose != Remediation
          && Exceeds(db.records[request.revision].body.manifest, Rules(db, request), reason))
      || (InBounds(db, principal, request) && WellFormed(request) && request.action.Some?
          && var action := request.action.value;
             Offends(action, request.purpose, CapabilityOf(db.records[principal].body.capabilities, action.capability),
                     db.records[request.revision].body.manifest, Rules(db, request), reason))
  }

  function Listed(answer: Answer<Verdict>): seq<Reason> {
    if answer.Done? then answer.value.reasons else []
  }

  lemma LegacyReasons(w: World, reason: Reason)
    ensures reason in LegacyBlockers(w) <==>
      reason.LegacyBlocker? && match reason.table
        case RiskFindings => w.openRisks > 0
        case ControlAssessments => w.missingControls > 0
        case ChangeEvents => w.openChanges > 0
  {
  }

  lemma NoLegacyWork(w: World)
    ensures LegacyBlockers(w) == [] <==> w.openRisks == 0 && w.missingControls == 0 && w.openChanges == 0
  {
  }

  lemma DenialReasons(db: Db, principal: Id, request: Request, w: World, reason: Reason)
    requires IsIntegration(db, principal) && Governed(db, principal, request) && !Permitted(db, principal, request)
    ensures var system, policyId := db.records[request.revision].body.system, PolicyOf(db, request).value;
      reason in Listed(Judge(db, principal, system, request, policyId, w))
      <==> Grounds(db, principal, request, w, reason)
  {
    hide Gather, ReleaseWasExecuted, LastReleaseHappened, ActionBlockers, ActionPermitted, ActivePolicy,
         ManifestBlockers, WithinPolicy,
         Exceeds, Offends, AllPass, Gaping, LegacyBlockers, NeedsReview, Routine;
    var rules, revision := Rules(db, request), db.records[request.revision].body;
    ManifestIsBounded(revision.manifest, rules);
    ManifestReasons(revision.manifest, rules, reason);
    if request.action.Some? {
      ActionBlockersEmpty(request.action.value, request.purpose, db.records[principal].body.capabilities,
                          revision.manifest, rules);
      ActionReasons(request.action.value, request.purpose, db.records[principal].body.capabilities,
                    revision.manifest, rules, reason);
    }
  }

  /** No ground lies in the manifest or the action of a permitted request. */
  lemma PermittedIsFaultless(db: Db, principal: Id, request: Request, w: World, reason: Reason)
    requires IsIntegration(db, principal) && Permitted(db, principal, request)
    ensures var rules, manifest := Rules(db, request), db.records[request.revision].body.manifest;
      && (request.purpose != Remediation ==> !Exceeds(manifest, rules, reason))
      && (request.action.Some? ==>
            !Offends(request.action.value, request.purpose,
                     CapabilityOf(db.records[principal].body.capabilities, request.action.value.capability), manifest,
                     rules, reason))
  {
    hide ActionBlockers, ActionPermitted, ActivePolicy, ManifestBlockers, WithinPolicy, Exceeds, Offends;
    var rules, manifest := Rules(db, request), db.records[request.revision].body.manifest;
    ManifestIsBounded(manifest, rules);
    ManifestReasons(manifest, rules, reason);
    if request.action.Some? {
      ActionBlockersEmpty(request.action.value, request.purpose, db.records[principal].body.capabilities, manifest,
                          rules);
      ActionReasons(request.action.value, request.purpose, db.records[principal].body.capabilities, manifest, rules,
                    reason);
    }
  }

  /** What is left to be judged of a permitted request. */
  lemma PermittedIsExamined(db: Db, principal: Id, request: Request, w: World)
    requires IsIntegration(db, principal) && Permitted(db, principal, request)
    ensures var system, policyId := db.records[request.revision].body.system, PolicyOf(db, request).value;
      var owed := if TargetOf(db, request).body.legacy.Some? then LegacyBlockers(w) else [];
      Listed(Judge(db, principal, system, request, policyId, w))
      == if request.purpose == Remediation then []
         else if !Examined(db, principal, request, w) then [PendingLegacyEvidence]
         else if GapsOf(db, request, w.now) != [] || owed != [] then GapsOf(db, request, w.now) + owed
         else if db.records[request.revision].state != Approved && !Routine(db, request) then [RevisionRequiresReview]
         else []
  {
    hide Gather, ReleaseWasExecuted, LastReleaseHappened, ActionBlockers, ActionPermitted, ActivePolicy,
         ManifestBlockers, WithinPolicy,
         LegacyBlockers;
    var rules, revision := Rules(db, request), db.records[request.revision].body;
    ManifestIsBounded(revision.manifest, rules);
    LastReleaseIsNewest(db, request);
    if request.action.Some? {
      ActionBlockersEmpty(request.action.value, request.purpose, db.records[principal].body.capabilities,
                          revision.manifest, rules);
    }
  }

  lemma PermittedReasons(db: Db, principal: Id, request: Request, w: World, reason: Reason)
    requires IsIntegration(db, principal) && Permitted(db, principal, request)
    ensures var system, policyId := db.records[request.revision].body.system, PolicyOf(db, request).value;
      reason in Listed(Judge(db, principal, system, request, policyId, w))
      <==> Grounds(db, principal, request, w, reason)
  {
    hide Judge, ActionPermitted, ActivePolicy, WithinPolicy, Exceeds, Offends, AllPass, Gaping, LegacyBlockers, GapsOf,
         Routine, Listed;
    PermittedIsFaultless(db, principal, request, w, reason);
    PermittedIsExamined(db, principal, request, w);
    NoGapsExactly(db, request, w.now);
    GapIsGaping(db, request, reason, w.now);
    LegacyReasons(w, reason);
    NoLegacyWork(w);
  }

  /** A reason is listed exactly when its ground holds. */
  lemma ReasonsAreExact(db: Db, principal: Id, request: Request, w: World, reason: Reason)
    requires IsIntegration(db, principal)
    ensures reason in Listed(Evaluate(db, principal, request, w)) <==> Grounds(db, principal, request, w, reason)
  {
    hide Judge, AllPass, Routine, OwesLegacyWork, ActionPermitted, WithinPolicy, ActivePolicy, Exceeds, Offends, Gaping;
    if Permitted(db, principal, request) {
      PermittedReasons(db, principal, request, w, reason);
    } else if Governed(db, principal, request) {
      DenialReasons(db, principal, request, w, reason);
    } else {
      UngovernedStaysOut(db, principal, request, w);
    }
  }

  lemma AnswersAreExact(db: Db, principal: Id, request: Request, w: World)
    requires IsIntegration(db, principal)
    ensures var answer := Evaluate(db, principal, request, w);
      && (Answered(answer) == Some(Deny) <==> Denies(db, principal, request, w))
      && (Answered(answer) == Some(RequiresReview) <==> AsksForReview(db, principal, request, w))
      && (Answered(answer) == Some(Indeterminate) <==> CannotTell(db, principal, request, w))
      && forall reason :: reason in Listed(answer) <==> Grounds(db, principal, request, w, reason)
  {
    hide Evaluate, Answered, Listed, Grounds, Denies, AsksForReview, CannotTell;
    OutcomesAreExact(db, principal, request, w);
    forall reason
      ensures reason in Listed(Evaluate(db, principal, request, w)) <==> Grounds(db, principal, request, w, reason)
    {
      ReasonsAreExact(db, principal, request, w, reason);
    }
  }

  /** An allow gives no reason, and a call for review one. */
  lemma ReasonsOfTheClear(db: Db, principal: Id, request: Request, w: World)
    requires IsIntegration(db, principal) && Evaluate(db, principal, request, w).Done?
    ensures var verdict := Evaluate(db, principal, request, w).value;
      && (verdict.outcome == Allow ==> verdict.reasons == [])
      && (verdict.outcome == RequiresReview ==> |verdict.reasons| == 1)
  {
    hide Gather, ActionBlockers, ManifestBlockers, ActivePolicy, NeedsReview, LegacyBlockers;
  }

  /** What a revision's approval asks of `evaluate`: an allow, or a call for nothing but that approval. */
  lemma ReviewReason(db: Db, principal: Id, request: Request, w: World)
    requires IsIntegration(db, principal)
    ensures var answer := Evaluate(db, principal, request, w);
      (answer.Done? && (answer.value.outcome == Allow || answer.value.outcome == RequiresReview)
       && (answer.value.reasons == [] || answer.value.reasons == [RevisionRequiresReview]))
      <==> Permits(db, principal, request, w) || Grounds(db, principal, request, w, RevisionRequiresReview)
  {
    OutcomesAreExact(db, principal, request, w);
    ReasonsAreExact(db, principal, request, w, RevisionRequiresReview);
    ReviewIsReview(db, principal, request, w);
    hide Evaluate, Permits, Denies, AsksForReview, CannotTell, Grounds;
    if Evaluate(db, principal, request, w).Done? {
      ReasonsOfTheClear(db, principal, request, w);
    }
  }

  lemma ReviewIsReview(db: Db, principal: Id, request: Request, w: World)
    requires IsIntegration(db, principal)
    ensures Grounds(db, principal, request, w, RevisionRequiresReview) ==> AsksForReview(db, principal, request, w)
  {
    hide Examined, OwesLegacyWork, AllPass, Routine, ExecutorReady;
  }

  // ----- what a verdict refers to -----

  /** A verdict names the policy in force and, once every check passes, the deciding observation of each. */
  lemma VerdictNamesItsGrounds(db: Db, principal: Id, request: Request, w: World)
    requires IsIntegration(db, principal) && Evaluate(db, principal, request, w).Done?
    ensures var verdict := Evaluate(db, principal, request, w).value;
      && verdict.policyId == PolicyOf(db, request)
      && (Examined(db, principal, request, w) && !OwesLegacyWork(db, request, w) && AllPass(db, request, w.now) ==>
            && |verdict.evidence| == |Rules(db, request).requiredChecks|
            && forall i :: 0 <= i < |verdict.evidence| ==>
                 Voice(db, request, Rules(db, request).requiredChecks[i]) == Some(verdict.evidence[i]))
      && (verdict.evidence != [] ==>
            Examined(db, principal, request, w) && !OwesLegacyWork(db, request, w) && AllPass(db, request, w.now))
  {
    hide ReleaseWasExecuted, ActionBlockers, ActionPermitted, ActivePolicy, AllPass, LegacyBlockers, Gather,
         ManifestBlockers, WithinPolicy, NeedsReview, Established, Candidates, Decisive;
    if Governed(db, principal, request) {
      var rules, revision := Rules(db, request), db.records[request.revision].body;
      NoGapsExactly(db, request, w.now);
      NoLegacyWork(w);
      ManifestIsBounded(revision.manifest, rules);
      if request.action.Some? {
        ActionBlockersEmpty(request.action.value, request.purpose, db.records[principal].body.capabilities,
                            revision.manifest, rules);
      }
      GatherIsClear(db, revision.system, OfManifest(revision.manifest), rules.requiredChecks, rules.trustedSources,
                    rules.evidenceMaxAge, w.now);
    }
  }
}
