/** What every run of the portable protocol keeps: calls of any callers in any interleaving, with any
    clocks, each followed by an audit append and anchoring, a crash before them, or another caller. */
module PortableProtocol {

  import opened Common
  import opened PortableRecords
  import opened PortableEvaluate
  import opened PortableSteps

  datatype Call =
    | CallCreateIntegration(id: Id, actor: string, permitted: bool, place: Place, scopes: set<AccessScope>,
                            capabilities: seq<Capability>)
    | CallRevoke(id: Id, permitted: bool)
    | CallRotate(id: Id, permitted: bool)
    | CallSubmitSystem(principal: Id, id: Id, displayName: string, resourceType: string, externalName: string,
                       purpose: string, legacy: Option<string>)
    | CallSubmitRevision(principal: Id, id: Id, system: Id, manifest: Manifest)
    | CallSubmitRevisionByHuman(actor: string, permitted: bool, principal: Id, id: Id, system: Id, manifest: Manifest)
    | CallSubmitObservation(principal: Id, id: Id, system: Id, name: string, check: string, result: EvidenceResult,
                            observedAt: Time, revisionDigest: Digest, evidenceRef: string,
                            actionDigest: Option<Digest>, resource: Option<string>)
    | CallDraftPolicy(actor: string, permitted: bool, id: Id, system: Id, policy: Policy)
    | CallDecide(actor: string, permitted: bool, id: Id, target: Id, decision: DecisionKind, expected: Body)
    | CallIssue(principal: Id, id: Id, token: string, request: Request)
    | CallConsume(principal: Id, token: string, request: Request)
    | CallRecordReceipt(principal: Id, id: Id, authorization: Id, executed: bool, evidenceRef: string)
    | CallVerifyReceipt(principal: Id, id: Id, receipt: Id, observation: Id)
    | CallAppend(id: Id, seen: Record)
    | CallAnchor(id: Id, seen: Record)

  function Apply(db: Db, call: Call, w: World): Answer<Db> {
    match call
    case CallCreateIntegration(id, actor, permitted, place, scopes, capabilities) =>
      CreateIntegration(db, id, actor, permitted, place, scopes, capabilities, w)
    case CallRevoke(id, permitted) => Revoke(db, id, permitted, w)
    case CallRotate(id, permitted) => Rotate(db, id, permitted, w)
    case CallSubmitSystem(principal, id, displayName, resourceType, externalName, purpose, legacy) =>
      SubmitSystem(db, principal, id, displayName, resourceType, externalName, purpose, legacy, w)
    case CallSubmitRevision(principal, id, system, manifest) =>
      SubmitRevisionByMachine(db, principal, id, system, manifest, w)
    case CallSubmitRevisionByHuman(actor, permitted, principal, id, system, manifest) =>
      SubmitRevisionByHuman(db, actor, permitted, principal, id, system, manifest, w)
    case CallSubmitObservation(principal, id, system, name, check, result, observedAt, digest, evidenceRef,
                               actionDigest, resource) =>
      SubmitObservation(db, principal, id,
                        Observation(system, name, check, result, observedAt, digest, evidenceRef, actionDigest, resource),
                        w)
    case CallDraftPolicy(actor, permitted, id, system, policy) => DraftPolicy(db, actor, permitted, id, system, policy, w)
    case CallDecide(actor, permitted, id, target, decision, expected) =>
      Decide(db, actor, permitted, id, target, decision, expected, w)
    case CallIssue(principal, id, token, request) => Issue(db, principal, id, token, request, w)
    case CallConsume(principal, token, request) => Consume(db, principal, token, request, w)
    case CallRecordReceipt(principal, id, authorization, executed, evidenceRef) =>
      RecordReceipt(db, principal, id, authorization, executed, evidenceRef, w)
    case CallVerifyReceipt(principal, id, receipt, observation) => VerifyReceipt(db, principal, id, receipt, observation, w)
    case CallAppend(id, seen) => Append(db, id, seen)
    case CallAnchor(id, seen) => Anchor(db, id, seen)
  }

  /** The name a call gives to the record it may create. */
  function NewName(call: Call): Option<Id> {
    match call
    case CallRevoke(_, _) | CallRotate(_, _) | CallConsume(_, _, _) | CallAppend(_, _) | CallAnchor(_, _) => None
    case _ => Some(call.id)
  }

  /** Random record ids and permit tokens do not collide with those in use. */
  predicate NamesAreNew(db: Db, call: Call) {
    && (NewName(call).Some? ==> NewName(call).value !in db.records)
    && (call.CallIssue? ==> call.token !in db.permits)
  }

  // ----- how records may change -----

  /** The states a record may reach from a state: reflexive and transitive per kind. */
  predicate CanBecome(body: Body, s: State, t: State) {
    s == t || match body
    case Integration(_, _) => t == Revoked
    case System(_, _, _, _, _) => s != Retired
    case Revision(_, _) => s == PendingReview && t == Approved
    case RuntimePolicy(_, _) => (s == Draft && (t == Active || t == Superseded)) || (s == Active && t == Superseded)
    case Authorization(_, _, _, _, outcome, _) => s == Evaluated(Allow) && t == Consumed
    case Receipt(_, _, _, _, _, _, _, _) => s == VerificationPending && (t == Verified || t == FailedState)
    case _ => false
  }

  /** What a record keeps for good: its origin, its body unless it is a system, its place in its
      lifecycle, and the anchor of an observation or of a consumed grant. */
  predicate Kept(a: Record, b: Record) {
    && a.place == b.place && a.integration == b.integration && a.key == b.key && a.createdBy == b.createdBy
    && a.createdAt == b.createdAt
    && (a.body == b.body || (a.body.System? && b.body.System?))
    && CanBecome(a.body, a.state, b.state)
    && (a.audited && (a.body.Observation? || (a.body.Authorization? && a.state == Consumed)) ==> b.audited)
  }

  predicate PermitKept(a: Permit, b: Permit) {
    a.grant == b.grant && a.expiresAt == b.expiresAt && (a.consumedAt.Some? ==> b == a)
  }

  ghost predicate Later(a: Db, b: Db) {
    && (forall id <- a.records :: id in b.records && Kept(a.records[id], b.records[id]))
    && (forall t <- a.permits :: t in b.permits && PermitKept(a.permits[t], b.permits[t]))
    && a.trail <= b.trail
  }

  lemma LaterIsReflexive(a: Db)
    ensures Later(a, a)
  {
  }

  lemma LaterIsTransitive(a: Db, b: Db, c: Db)
    requires Later(a, b) && Later(b, c)
    ensures Later(a, c)
  {
    forall id <- a.records
      ensures id in c.records && Kept(a.records[id], c.records[id])
    {
      assert Kept(a.records[id], b.records[id]) && Kept(b.records[id], c.records[id]);
    }
  }

  // ----- what every record satisfies -----

  /** A record is in its state by a recorded decision of that kind about it. */
  predicate DecidedBy(db: Db, id: Id, decision: DecisionKind)
    requires id in db.records
  {
    var d := db.records[id].decisionId;
    && d.Some? && d.value in db.records
    && db.records[d.value].body.Decision?
    && db.records[d.value].body.target == id && db.records[d.value].body.decision == decision
  }

  function Snapshot(db: Db, id: Id): Body
    requires id in db.records && db.records[id].decisionId.Some? && db.records[id].decisionId.value in db.records
    requires db.records[db.records[id].decisionId.value].body.Decision?
  {
    db.records[db.records[id].decisionId.value].body.snapshot
  }

  /** An approved system still has the purpose and the legacy binding that were approved. */
  predicate SystemOk(db: Db, id: Id)
    requires IsSystem(db, id)
  {
    var r := db.records[id];
    && IsIntegration(db, r.integration)
    && r.state in {Planned, Approved, Retired}
    && (r.state == Approved ==>
          && DecidedBy(db, id, ApproveSystem) && Snapshot(db, id).System?
          && Snapshot(db, id).purpose == r.body.purpose && Snapshot(db, id).legacy == r.body.legacy)
  }

  /** An approved revision is, word for word, the one that was approved. */
  predicate RevisionOk(db: Db, id: Id)
    requires IsRevision(db, id)
  {
    var r := db.records[id];
    && IsSystem(db, r.body.system) && r.integration == db.records[r.body.system].integration
    && r.place == db.records[r.body.system].place
    && r.state in {PendingReview, Approved}
    && (r.state == Approved ==> DecidedBy(db, id, ApproveRevision) && Snapshot(db, id) == r.body)
  }

  predicate PolicyOk(db: Db, id: Id)
    requires id in db.records && db.records[id].body.RuntimePolicy?
  {
    var r := db.records[id];
    && IsSystem(db, r.body.system) && r.place == db.records[r.body.system].place
    && r.state in {Draft, Active, Superseded}
    && (r.state == Active ==> DecidedBy(db, id, ActivatePolicy) && Snapshot(db, id) == r.body)
  }

  /** An allowing grant names its policy and, for an action, a capability of its executor; its revision
      is the one whose manifest it digests. It is consumed or as issued, and has a permit. */
  ghost predicate GrantOk(db: Db, id: Id)
    requires id in db.records && db.records[id].body.Authorization?
  {
    var r := db.records[id];
    && IsIntegration(db, r.integration) && r.place == db.records[r.integration].place && IsRevision(db, r.body.revision)
    && r.body.manifestDigest == OfManifest(db.records[r.body.revision].body.manifest)
    && r.body.system == db.records[r.body.revision].body.system && r.body.revision == r.body.request.revision
    && (r.state == Evaluated(r.body.outcome) || (r.body.outcome == Allow && r.state == Consumed))
    && (r.body.outcome == Allow ==>
          && r.body.policyId.Some? && r.body.policyId.value in db.records
          && db.records[r.body.policyId.value].body.RuntimePolicy?
          && db.records[r.body.policyId.value].body.system == r.body.system
          && (r.body.request.action.Some? ==>
                CapabilityOf(db.records[r.integration].body.capabilities, r.body.request.action.value.capability).Some?)
          && exists t <- db.permits :: db.permits[t].grant == id)
  }

  /** Nobody decides about what they created. */
  predicate DecisionOk(db: Db, id: Id)
    requires id in db.records && db.records[id].body.Decision?
  {
    var r := db.records[id];
    && r.body.target in db.records && r.createdBy != db.records[r.body.target].createdBy && r.createdBy.Human?
    && Decides(r.body.decision, r.body.snapshot) && r.body.system == SystemOf(r.body.snapshot, r.body.target)
  }

  /** A receipt belongs to the executor of a consumed, anchored grant and repeats what it authorized. It is
      settled at once when it reports a release or nothing executed, and otherwise by a verification. */
  ghost predicate ReceiptOk(db: Db, id: Id)
    requires id in db.records && db.records[id].body.Receipt?
  {
    var r := db.records[id];
    && r.key == ReceiptKey(r.body.authorization) && r.body.verificationAfter == r.createdAt
    && r.body.authorization in db.records && db.records[r.body.authorization].body.Authorization?
    && var grant := db.records[r.body.authorization];
    && grant.state == Consumed && grant.audited
    && grant.integration == r.integration && grant.place == r.place
    && grant.body.system == r.body.system && grant.body.revision == r.body.revision
    && grant.body.policyId == r.body.policyId && grant.body.request.purpose == r.body.purposeOf
    && r.state in {ReportedExecuted, VerificationPending, Verified, FailedState}
    && (r.state == ReportedExecuted <==> r.body.executed && r.body.purposeOf == Release)
    && (r.state == VerificationPending || r.state == Verified ==> r.body.executed && r.body.purposeOf != Release)
    && (r.state == Verified || (r.state == FailedState && r.body.executed) ==>
          exists v <- db.records :: db.records[v].body.Verification? && db.records[v].body.receipt == id)
  }

  /** A verification rests on an anchored observation by its own author, who is not the executor and whom
      the authorizing policy trusts, about exactly what was authorized, after the execution was reported. */
  predicate VerificationOk(db: Db, id: Id)
    requires id in db.records && db.records[id].body.Verification?
  {
    var v := db.records[id];
    && v.key == VerificationKey(v.body.receipt)
    && v.body.receipt in db.records && db.records[v.body.receipt].body.Receipt?
    && v.body.observation in db.records && db.records[v.body.observation].body.Observation?
    && var receipt := db.records[v.body.receipt];
    && var observation := db.records[v.body.observation];
    && receipt.body.executed && receipt.state == (if observation.body.result == Passing then Verified else FailedState)
    && observation.audited && observation.integration == v.integration && v.integration != receipt.integration
    && receipt.body.verificationAfter <= observation.body.observedAt
    && receipt.body.authorization in db.records && db.records[receipt.body.authorization].body.Authorization?
    && var grant := db.records[receipt.body.authorization].body;
    && grant.request.action.Some? && observation.body.system == receipt.body.system
    && observation.body.revisionDigest == grant.manifestDigest
    && observation.body.actionDigest == Some(OfRequest(grant.request))
    && observation.body.resource == Some(grant.request.action.value.resource)
    && grant.policyId.Some? && grant.policyId.value in db.records
    && db.records[grant.policyId.value].body.RuntimePolicy?
    && v.integration in db.records[grant.policyId.value].body.policy.trustedSources
    && v.createdAt - observation.body.observedAt <= db.records[grant.policyId.value].body.policy.evidenceMaxAge
  }

  /** Every kind has its own keys; a random key is nobody else's. */
  predicate KeyFits(key: ExternalKey, body: Body, id: Id) {
    match body
    case System(_, _, _, _, _) => key.SystemKey?
    case Revision(_, _) => key.RevisionKey?
    case Observation(_, _, _, _, _, _, _, _, _) => key.ObservationKey?
    case Receipt(_, _, _, _, _, _, _, _) => key.ReceiptKey?
    case Verification(_, _, _) => key.VerificationKey?
    case _ => key == Fresh(id)
  }

  ghost predicate RecordOk(db: Db, id: Id)
    requires id in db.records
  {
    var r := db.records[id];
    && KeyFits(r.key, r.body, id)
    && match r.body
       case Integration(_, _) => r.createdBy.Human?
       case System(_, _, _, _, _) => SystemOk(db, id)
       case Revision(_, _) => RevisionOk(db, id)
       case Observation(_, _, _, _, observedAt, _, _, _, _) => observedAt <= r.createdAt
       case RuntimePolicy(_, _) => PolicyOk(db, id)
       case Authorization(_, _, _, _, _, _) => GrantOk(db, id)
       case Decision(_, _, _, _) => DecisionOk(db, id)
       case Receipt(_, _, _, _, _, _, _, _) => ReceiptOk(db, id)
       case Verification(_, _, _) => VerificationOk(db, id)
  }

  predicate IsActivePolicy(r: Record) {
    r.body.RuntimePolicy? && r.state == Active
  }

  ghost predicate OneActivePolicy(db: Db) {
    forall p, q | p in db.records && q in db.records && p != q && IsActivePolicy(db.records[p])
                  && IsActivePolicy(db.records[q]) :: db.records[p].body.system != db.records[q].body.system
  }

  predicate SameKey(a: Record, b: Record) {
    a.key == b.key && a.integration == b.integration && a.place == b.place
  }

  ghost predicate KeysUnique(db: Db) {
    forall i, j | i in db.records && j in db.records && i != j :: !SameKey(db.records[i], db.records[j])
  }

  /** A permit stands for one allowing grant and lives as long as the authorizing policy says; it is
      consumed exactly when the grant is, before it expired, and only after the grant's issued state was
      anchored. */
  predicate PermitOk(db: Db, token: string)
    requires token in db.permits
  {
    var p := db.permits[token];
    && p.grant in db.records && db.records[p.grant].body.Authorization?
    && var grant := db.records[p.grant];
    && grant.body.outcome == Allow
    && grant.body.policyId.Some? && grant.body.policyId.value in db.records
    && db.records[grant.body.policyId.value].body.RuntimePolicy?
    && p.expiresAt == grant.createdAt + db.records[grant.body.policyId.value].body.policy.permitTtl
    && (p.consumedAt.Some? <==> grant.state == Consumed)
    && (p.consumedAt.Some? ==>
          && p.consumedAt.value < p.expiresAt
          && TrailEntry(p.grant, Evaluated(Allow), grant.body, grant.decisionId) in db.trail)
  }

  ghost predicate PermitsOk(db: Db) {
    && (forall t {:trigger PermitOk(db, t)} | t in db.permits :: PermitOk(db, t))
    && (forall t, u :: t in db.permits && u in db.permits && db.permits[t].grant == db.permits[u].grant ==> t == u)
  }

  /** Nothing carries an anchor whose very state is not in the audit log. */
  ghost predicate AnchorsOk(db: Db) {
    forall id <- db.records :: db.records[id].audited ==> EntryOf(id, db.records[id]) in db.trail
  }

  ghost predicate RecordsOk(db: Db) {
    forall id {:trigger RecordOk(db, id)} | id in db.records :: RecordOk(db, id)
  }

  ghost predicate Sound(db: Db) {
    RecordsOk(db) && OneActivePolicy(db) && KeysUnique(db) && PermitsOk(db) && AnchorsOk(db)
  }

  // ----- keeping the per-record conditions -----

  /** The parts of a record that its own condition reads. */
  predicate Untouched(a: Record, b: Record) {
    a.body == b.body && a.state == b.state && a.decisionId == b.decisionId
  }

  lemma RecordOkKept(a: Db, b: Db, id: Id)
    requires Later(a, b) && id in a.records && RecordOk(a, id) && Untouched(a.records[id], b.records[id])
    ensures RecordOk(b, id)
  {
    hide CanBecome, CapabilityOf;
    var r, s := a.records[id], b.records[id];
    assert Kept(r, s);
    match r.body
    case Integration(_, _) =>
    case System(_, _, _, _, _) => SystemOkKept(a, b, id);
    case Revision(_, _) => RevisionOkKept(a, b, id);
    case Observation(_, _, _, _, _, _, _, _, _) =>
    case RuntimePolicy(_, _) => PolicyOkKept(a, b, id);
    case Authorization(_, _, _, _, _, _) => GrantOkKept(a, b, id);
    case Decision(_, _, _, _) =>
    case Receipt(_, _, _, _, _, _, _, _) => ReceiptOkKept(a, b, id);
    case Verification(_, _, _) => VerificationOkKept(a, b, id);
  }

  lemma KeptAt(a: Db, b: Db, id: Id)
    requires Later(a, b) && id in a.records
    ensures id in b.records && Kept(a.records[id], b.records[id])
  {
  }

  lemma DecidedByKept(a: Db, b: Db, id: Id, decision: DecisionKind)
    requires Later(a, b) && id in a.records && Untouched(a.records[id], b.records[id])
    requires DecidedBy(a, id, decision)
    ensures DecidedBy(b, id, decision) && Snapshot(b, id) == Snapshot(a, id)
  {
    KeptAt(a, b, a.records[id].decisionId.value);
  }

  lemma SystemOkKept(a: Db, b: Db, id: Id)
    requires Later(a, b) && IsSystem(a, id) && SystemOk(a, id) && Untouched(a.records[id], b.records[id])
    ensures SystemOk(b, id)
  {
    hide CanBecome, DecidedBy;
    KeptAt(a, b, id);
    KeptAt(a, b, a.records[id].integration);
    if a.records[id].state == Approved { DecidedByKept(a, b, id, ApproveSystem); }
  }

  lemma RevisionOkKept(a: Db, b: Db, id: Id)
    requires Later(a, b) && IsRevision(a, id) && RevisionOk(a, id) && Untouched(a.records[id], b.records[id])
    ensures RevisionOk(b, id)
  {
    hide CanBecome, DecidedBy;
    KeptAt(a, b, id);
    KeptAt(a, b, a.records[id].body.system);
    if a.records[id].state == Approved { DecidedByKept(a, b, id, ApproveRevision); }
  }

  lemma PolicyOkKept(a: Db, b: Db, id: Id)
    requires Later(a, b) && id in a.records && a.records[id].body.RuntimePolicy? && PolicyOk(a, id)
    requires Untouched(a.records[id], b.records[id])
    ensures PolicyOk(b, id)
  {
    hide CanBecome, DecidedBy;
    KeptAt(a, b, id);
    KeptAt(a, b, a.records[id].body.system);
    if a.records[id].state == Active { DecidedByKept(a, b, id, ActivatePolicy); }
  }

  lemma GrantOkKept(a: Db, b: Db, id: Id)
    requires Later(a, b) && id in a.records && a.records[id].body.Authorization? && GrantOk(a, id)
    requires Untouched(a.records[id], b.records[id])
    ensures GrantOk(b, id)
  {
    hide CanBecome, CapabilityOf;
    var r := a.records[id];
    KeptAt(a, b, id);
    KeptAt(a, b, r.integration);
    KeptAt(a, b, r.body.revision);
    if r.body.outcome == Allow {
      KeptAt(a, b, r.body.policyId.value);
      var t :| t in a.permits && a.permits[t].grant == id;
      assert t in b.permits && b.permits[t].grant == id;
    }
  }

  lemma ReceiptOkKept(a: Db, b: Db, id: Id)
    requires Later(a, b) && id in a.records && a.records[id].body.Receipt? && ReceiptOk(a, id)
    requires Untouched(a.records[id], b.records[id])
    ensures ReceiptOk(b, id)
  {
    KeptAt(a, b, id);
    KeptAt(a, b, a.records[id].body.authorization);
    if a.records[id].state == Verified || (a.records[id].state == FailedState && a.records[id].body.executed) {
      var v :| v in a.records && a.records[v].body.Verification? && a.records[v].body.receipt == id;
      KeptAt(a, b, v);
    }
  }

  lemma VerificationOkKept(a: Db, b: Db, id: Id)
    requires Later(a, b) && id in a.records && a.records[id].body.Verification? && VerificationOk(a, id)
    requires Untouched(a.records[id], b.records[id])
    ensures VerificationOk(b, id)
  {
    KeptAt(a, b, id);
    var v := a.records[id].body;
    KeptAt(a, b, v.receipt);
    KeptAt(a, b, v.observation);
    var g := a.records[v.receipt].body.authorization;
    KeptAt(a, b, g);
    KeptAt(a, b, a.records[g].body.policyId.value);
  }

  lemma RecordsAfter(a: Db, b: Db, touched: set<Id>)
    requires RecordsOk(a) && Later(a, b)
    requires forall id <- b.records :: id in touched || (id in a.records && Untouched(a.records[id], b.records[id]))
    requires forall id <- touched :: id in b.records ==> RecordOk(b, id)
    ensures RecordsOk(b)
  {
    hide Later, RecordOk, Untouched;
    forall id <- b.records
      ensures RecordOk(b, id)
    {
      if id !in touched { RecordOkKept(a, b, id); }
    }
  }


  // ----- keeping the tables -----

  lemma SoundParts(db: Db)
    requires Sound(db)
    ensures RecordsOk(db) && OneActivePolicy(db) && KeysUnique(db) && PermitsOk(db) && AnchorsOk(db)
  {
  }

  lemma SoundFrom(db: Db)
    requires RecordsOk(db) && OneActivePolicy(db) && KeysUnique(db) && PermitsOk(db) && AnchorsOk(db)
    ensures Sound(db)
  {
  }

  lemma RecordAt(db: Db, id: Id)
    requires RecordsOk(db) && id in db.records
    ensures RecordOk(db, id)
  {
  }

  lemma PermitAt(db: Db, token: string)
    requires PermitsOk(db) && token in db.permits
    ensures PermitOk(db, token)
  {
  }

  lemma PermitsFrame(a: Db, b: Db)
    requires PermitsOk(a) && b.permits == a.permits && Later(a, b)
    requires forall id <- a.records :: a.records[id].body.Authorization?
                                       ==> id in b.records && Untouched(a.records[id], b.records[id])
    ensures PermitsOk(b)
  {
    hide CanBecome;
    forall t <- b.permits
      ensures PermitOk(b, t)
    {
      assert PermitOk(a, t);
      var g := a.permits[t].grant;
      KeptAt(a, b, g);
      KeptAt(a, b, a.records[g].body.policyId.value);
    }
  }

  lemma ActiveFrame(a: Db, b: Db)
    requires OneActivePolicy(a)
    requires forall id <- b.records :: IsActivePolicy(b.records[id])
                                       ==> id in a.records && IsActivePolicy(a.records[id])
                                           && a.records[id].body == b.records[id].body
    ensures OneActivePolicy(b)
  {
  }

  lemma KeysFrame(a: Db, b: Db)
    requires KeysUnique(a) && b.records.Keys == a.records.Keys
    requires forall id <- a.records :: SameKey(a.records[id], b.records[id])
    ensures KeysUnique(b)
  {
    forall i, j | i in b.records && j in b.records && i != j
      ensures !SameKey(b.records[i], b.records[j])
    {
      assert !SameKey(a.records[i], a.records[j]);
    }
  }

  lemma InsertedKeys(a: Db, id: Id, r: Record)
    requires KeysUnique(a) && id !in a.records && TryInsert(a, id, r).Done?
    ensures KeysUnique(Insert(a, id, r))
  {
  }

  lemma AnchorsFrame(a: Db, b: Db)
    requires AnchorsOk(a) && a.trail <= b.trail
    requires forall id <- b.records :: b.records[id].audited ==>
               id in a.records && a.records[id].audited && Untouched(a.records[id], b.records[id])
    ensures AnchorsOk(b)
  {
    forall id <- b.records | b.records[id].audited
      ensures EntryOf(id, b.records[id]) in b.trail
    {
      assert EntryOf(id, a.records[id]) in a.trail;
    }
  }

  // ----- the two elementary changes -----

  lemma InsertIsLater(a: Db, id: Id, r: Record)
    requires id !in a.records
    ensures Later(a, Insert(a, id, r))
  {
  }

  lemma InsertKeeps(a: Db, id: Id, r: Record)
    requires Sound(a) && id !in a.records && TryInsert(a, id, r).Done?
    requires !r.audited && !IsActivePolicy(r) && RecordOk(Insert(a, id, r), id)
    ensures Sound(Insert(a, id, r))
  {
    hide Sound, RecordsOk, RecordOk, Later, CanBecome, OneActivePolicy, KeysUnique, PermitsOk, PermitOk, AnchorsOk;
    SoundParts(a);
    var b := Insert(a, id, r);
    InsertIsLater(a, id, r);
    RecordsAfter(a, b, {id});
    ActiveFrame(a, b);
    InsertedKeys(a, id, r);
    PermitsFrame(a, b);
    AnchorsFrame(a, b);
    SoundFrom(b);
  }

  lemma SetStateIsLater(a: Db, id: Id, state: State, decisionId: Option<Id>, now: Time)
    requires id in a.records && CanBecome(a.records[id].body, a.records[id].state, state)
    requires !a.records[id].body.Observation?
    requires a.records[id].body.Authorization? ==> a.records[id].state != Consumed
    ensures Later(a, SetState(a, id, state, decisionId, now))
  {
    assert forall body, s :: CanBecome(body, s, s);
    hide CanBecome;
  }

  /** Rewriting one record, not a grant's, without its anchor. */
  lemma {:induction false} UpdateKeeps(a: Db, b: Db, id: Id)
    requires Sound(a) && Later(a, b) && id in a.records && id in b.records && !a.records[id].body.Authorization?
    requires b == a.(records := a.records[id := b.records[id]])
    requires RecordOk(b, id) && !b.records[id].audited
    requires OneActivePolicy(b)
    ensures Sound(b)
  {
    hide Sound, RecordsOk, RecordOk, Later, CanBecome, OneActivePolicy, KeysUnique, PermitsOk, PermitOk, AnchorsOk;
    SoundParts(a);
    KeptAt(a, b, id);
    RecordsAfter(a, b, {id});
    KeysFrame(a, b);
    PermitsFrame(a, b);
    AnchorsFrame(a, b);
    SoundFrom(b);
  }

  lemma SetStateKeeps(a: Db, id: Id, state: State, decisionId: Option<Id>, now: Time)
    requires Sound(a) && id in a.records && CanBecome(a.records[id].body, a.records[id].state, state)
    requires !a.records[id].body.Observation? && !a.records[id].body.Authorization?
    requires RecordOk(SetState(a, id, state, decisionId, now), id)
    requires a.records[id].body.RuntimePolicy? && state == Active ==>
               forall p <- a.records :: IsActivePolicy(a.records[p])
                                        ==> a.records[p].body.system != a.records[id].body.system
    ensures Sound(SetState(a, id, state, decisionId, now))
  {
    hide Sound, RecordsOk, RecordOk, Later, CanBecome, KeysUnique, PermitsOk, AnchorsOk;
    SoundParts(a);
    SetStateIsLater(a, id, state, decisionId, now);
    UpdateKeeps(a, SetState(a, id, state, decisionId, now), id);
  }

  // ----- call by call -----

  lemma CreateIntegrationKeeps(a: Db, id: Id, actor: string, permitted: bool, place: Place, scopes: set<AccessScope>,
                               capabilities: seq<Capability>, w: World)
    requires Sound(a) && id !in a.records
    requires CreateIntegration(a, id, actor, permitted, place, scopes, capabilities, w).Done?
    ensures var b := CreateIntegration(a, id, actor, permitted, place, scopes, capabilities, w).value;
      Sound(b) && Later(a, b)
  {
    var r := NewRecord(place, NOBODY, Fresh(id), Active, Integration(scopes, capabilities), Human(actor), w.now);
    InsertIsLater(a, id, r);
    InsertKeeps(a, id, r) by { hide Sound; }
  }

  lemma RevokeOrRotateKeeps(a: Db, id: Id, state: State, now: Time)
    requires Sound(a) && IsIntegration(a, id) && (state == Revoked || (state == Active && a.records[id].state == Active))
    ensures var b := SetState(a, id, state, None, now); Sound(b) && Later(a, b)
  {
    assert RecordOk(a, id);
    SetStateIsLater(a, id, state, None, now);
    SetStateKeeps(a, id, state, None, now) by { hide Sound, Later; }
  }

  lemma SubmitSystemKeeps(a: Db, principal: Id, id: Id, displayName: string, resourceType: string,
                          externalName: string, purpose: string, legacy: Option<string>, w: World)
    requires Sound(a) && id !in a.records
    requires SubmitSystem(a, principal, id, displayName, resourceType, externalName, purpose, legacy, w).Done?
    ensures var b := SubmitSystem(a, principal, id, displayName, resourceType, externalName, purpose, legacy, w).value;
      Sound(b) && Later(a, b)
  {
    var source := a.records[principal];
    var key := SystemKey(resourceType, externalName);
    var body := System(displayName, resourceType, externalName, purpose, legacy);
    var filed := FiledSystem(a, principal, key, source.place);
    var b := SubmitSystem(a, principal, id, displayName, resourceType, externalName, purpose, legacy, w).value;
    if filed == None {
      var r := NewRecord(source.place, principal, key, Planned, body, Machine(principal), w.now);
      InsertIsLater(a, id, r);
      InsertKeeps(a, id, r) by { hide Sound, Later; }
    } else {
      var s := filed.value;
      SystemRewriteKeeps(a, b, s);
    }
  }

  lemma SystemRewriteIsOk(a: Db, b: Db, s: Id)
    requires RecordsOk(a) && s in a.records && s in b.records && b == a.(records := a.records[s := b.records[s]])
    requires IsRewrite(a.records[s], b.records[s])
    ensures RecordOk(b, s)
  {
    assert RecordOk(a, s);
    if b.records[s].state == Approved { assert DecidedBy(a, s, ApproveSystem); }
  }

  /** A system rewritten in place, its approval dropped unless purpose and legacy binding stay. */
  predicate IsRewrite(r: Record, t: Record) {
    && r.body.System? && t.body.System? && SameKey(r, t) && t.createdBy == r.createdBy && t.createdAt == r.createdAt
    && t.decisionId == r.decisionId && !t.audited
    && (t.state == r.state || (t.state == Planned && r.state != Retired))
    && (t.state == Planned || (t.body.purpose == r.body.purpose && t.body.legacy == r.body.legacy) || r.state == Retired)
  }

  lemma SystemRewriteIsLater(a: Db, b: Db, s: Id)
    requires s in a.records && s in b.records && b == a.(records := a.records[s := b.records[s]])
    requires IsRewrite(a.records[s], b.records[s])
    ensures Later(a, b)
  {
  }

  lemma SystemRewriteKeeps(a: Db, b: Db, s: Id)
    requires Sound(a) && s in a.records && s in b.records && b == a.(records := a.records[s := b.records[s]])
    requires IsRewrite(a.records[s], b.records[s])
    ensures Sound(b) && Later(a, b)
  {
    hide Sound, RecordsOk, RecordOk, Later, CanBecome, OneActivePolicy, KeysUnique, PermitsOk, PermitOk, AnchorsOk;
    SoundParts(a);
    SystemRewriteIsLater(a, b, s);
    SystemRewriteIsOk(a, b, s);
    ActiveFrame(a, b);
    UpdateKeeps(a, b, s);
  }

  lemma SubmitRevisionKeeps(a: Db, principal: Id, id: Id, system: Id, manifest: Manifest, author: Actor, w: World)
    requires Sound(a) && id !in a.records && IsIntegration(a, principal)
    requires SubmitRevision(a, principal, id, system, manifest, author, w).Done?
    ensures var b := SubmitRevision(a, principal, id, system, manifest, author, w).value; Sound(b) && Later(a, b)
  {
    hide Sound, Later;
    var b := SubmitRevision(a, principal, id, system, manifest, author, w).value;
    LaterIsReflexive(a);
    if b != a {
      var r := NewRecord(a.records[system].place, principal, RevisionKey(system, manifest.revision), PendingReview,
                         Revision(system, manifest), author, w.now);
      assert b == Insert(a, id, r) && TryInsert(a, id, r).Done?;
      InsertIsLater(a, id, r);
      assert RecordOk(b, id);
      hide RecordOk, SubmitRevision;
      InsertKeeps(a, id, r);
    }
  }

  lemma {:induction false} SubmitObservationKeeps(a: Db, principal: Id, id: Id, observation: Body, w: World)
    requires Sound(a) && id !in a.records && observation.Observation?
    requires SubmitObservation(a, principal, id, observation, w).Done?
    ensures var b := SubmitObservation(a, principal, id, observation, w).value; Sound(b) && Later(a, b)
  {
    hide Sound, Later;
    var b := SubmitObservation(a, principal, id, observation, w).value;
    LaterIsReflexive(a);
    if b != a {
      var r := NewRecord(a.records[observation.system].place, principal,
                         ObservationKey(observation.system, observation.name), Recorded, observation,
                         Machine(principal), w.now);
      assert b == Insert(a, id, r) && TryInsert(a, id, r).Done?;
      InsertIsLater(a, id, r);
      assert RecordOk(b, id);
      hide RecordOk, SubmitObservation;
      InsertKeeps(a, id, r);
    }
  }

  lemma DraftPolicyKeeps(a: Db, actor: string, permitted: bool, id: Id, system: Id, policy: Policy, w: World)
    requires Sound(a) && id !in a.records
    requires DraftPolicy(a, actor, permitted, id, system, policy, w).Done?
    ensures var b := DraftPolicy(a, actor, permitted, id, system, policy, w).value; Sound(b) && Later(a, b)
  {
    var r := NewRecord(a.records[system].place, NOBODY, Fresh(id), Draft, RuntimePolicy(system, policy),
                       Human(actor), w.now);
    InsertIsLater(a, id, r);
    InsertKeeps(a, id, r) by { hide Sound, Later; }
  }

  // ----- decisions -----

  lemma SupersedeRecords(a: Db, priors: set<Id>, now: Time)
    requires Sound(a) && forall p <- priors :: p in a.records && IsActivePolicy(a.records[p])
    ensures var b := Supersede(a, priors, now); RecordsOk(b) && Later(a, b)
  {
    hide Sound, RecordsOk, Later;
    SoundParts(a);
    var b := Supersede(a, priors, now);
    SupersedeIsLater(a, priors, now);
    forall p <- priors
      ensures RecordOk(b, p)
    {
      RecordAt(a, p);
      KeptAt(a, b, a.records[p].body.system);
    }
    hide RecordOk;
    RecordsAfter(a, b, priors);
  }

  lemma SupersedeIsLater(a: Db, priors: set<Id>, now: Time)
    requires forall p <- priors :: p in a.records && IsActivePolicy(a.records[p])
    ensures Later(a, Supersede(a, priors, now))
  {
  }

  lemma SupersedeKeeps(a: Db, priors: set<Id>, now: Time)
    requires Sound(a) && forall p <- priors :: p in a.records && IsActivePolicy(a.records[p])
    ensures var b := Supersede(a, priors, now); Sound(b) && Later(a, b)
  {
    hide Sound, RecordsOk, RecordOk, Later, CanBecome, OneActivePolicy, KeysUnique, PermitsOk, PermitOk, AnchorsOk;
    SoundParts(a);
    var b := Supersede(a, priors, now);
    SupersedeRecords(a, priors, now);
    ActiveFrame(a, b);
    KeysFrame(a, b);
    PermitsFrame(a, b);
    AnchorsFrame(a, b);
    SoundFrom(b);
  }

  /** The outcome of a decision: the target in its new state, decided by a record of this decision. */
  lemma DecidedIsOk(b: Db, id: Id, target: Id, decision: DecisionKind, now: Time)
    requires RecordsOk(b) && id in b.records && target in b.records && id != target
    requires b.records[id].body.Decision? && b.records[id].body.target == target
    requires b.records[id].body.decision == decision && b.records[id].body.snapshot == b.records[target].body
    requires Decides(decision, b.records[target].body) && !Terminal(b.records[target], decision)
    ensures CanBecome(b.records[target].body, b.records[target].state, Decided(decision))
    ensures RecordOk(SetState(b, target, Decided(decision), Some(id), now), target)
  {
    assert RecordOk(b, target);
    var c := SetState(b, target, Decided(decision), Some(id), now);
    assert DecidedBy(c, target, decision);
    assert Snapshot(c, target) == c.records[target].body;
  }

  /** After superseding, no policy of the target's system is active. */
  lemma NoneStaysActive(a: Db, target: Id, filed: Db, id: Id, now: Time)
    requires Sound(a) && target in a.records && a.records[target].body.RuntimePolicy? && id !in a.records
    requires a.records[target].state == Draft
    requires filed.records.Keys == a.records.Keys + {id} && !IsActivePolicy(filed.records[id])
    requires forall i <- a.records :: filed.records[i] == Supersede(a, Priors(a, target), now).records[i]
    ensures filed.records[target].body.RuntimePolicy?
    ensures forall p <- filed.records :: IsActivePolicy(filed.records[p])
                                         ==> filed.records[p].body.system != filed.records[target].body.system
  {
    forall p <- filed.records | IsActivePolicy(filed.records[p])
      ensures filed.records[p].body.system != filed.records[target].body.system
    {
      assert p in a.records && RecordOk(a, p) && RecordOk(a, target);
    }
  }

  lemma MinutesAreOk(b: Db, id: Id, minutes: Record)
    requires minutes.body.Decision? && minutes.key == Fresh(id) && minutes.createdBy.Human?
    requires minutes.body.target in b.records && minutes.createdBy != b.records[minutes.body.target].createdBy
    requires id !in b.records && Decides(minutes.body.decision, minutes.body.snapshot)
    requires minutes.body.system == SystemOf(minutes.body.snapshot, minutes.body.target)
    ensures RecordOk(Insert(b, id, minutes), id)
  {
  }

  /** The three writes of a decision: supersede, file the minutes, move the target. */
  lemma {:induction false} DecisionWritesKeep(a: Db, id: Id, target: Id, minutes: Record, decision: DecisionKind,
                                              now: Time)
    requires Sound(a) && id !in a.records && target in a.records
    requires Decides(decision, a.records[target].body) && !Terminal(a.records[target], decision)
    requires minutes.body == Decision(SystemOf(a.records[target].body, target), target, decision, a.records[target].body)
    requires minutes.createdBy.Human? && minutes.createdBy != a.records[target].createdBy
    requires minutes.key == Fresh(id) && !minutes.audited
    requires TryInsert(Supersede(a, Priors(a, target), now), id, minutes).Done?
    ensures var filed := Insert(Supersede(a, Priors(a, target), now), id, minutes);
      && target in filed.records
      && var b := SetState(filed, target, Decided(decision), Some(id), now);
      Sound(b) && Later(a, b)
  {
    hide RecordOk, Later, CanBecome, RecordsOk, KeysUnique, PermitsOk, AnchorsOk, OneActivePolicy;
    var superseded := Supersede(a, Priors(a, target), now);
    SupersedeKeeps(a, Priors(a, target), now);
    assert superseded.records[target] == a.records[target];
    var filed := Insert(superseded, id, minutes);
    InsertIsLater(superseded, id, minutes);
    MinutesAreOk(superseded, id, minutes);
    InsertKeeps(superseded, id, minutes);
    DecidedIsOk(filed, id, target, decision, now);
    var b := SetState(filed, target, Decided(decision), Some(id), now);
    SetStateIsLater(filed, target, Decided(decision), Some(id), now);
    if a.records[target].body.RuntimePolicy? { NoneStaysActive(a, target, filed, id, now); }
    SetStateKeeps(filed, target, Decided(decision), Some(id), now);
    LaterIsTransitive(a, superseded, filed);
    LaterIsTransitive(a, filed, b);
  }

  lemma {:induction false} DecideKeeps(a: Db, actor: string, permitted: bool, id: Id, target: Id,
                                       decision: DecisionKind, expected: Body,
                                       w: World)
    requires Sound(a) && id !in a.records
    requires Decide(a, actor, permitted, id, target, decision, expected, w).Done?
    ensures var b := Decide(a, actor, permitted, id, target, decision, expected, w).value; Sound(b) && Later(a, b)
  {
    hide Sound, Later, ReviewFault, UntrustedSource, SetState, Supersede, Priors;
    var r := a.records[target];
    var minutes := NewRecord(r.place, NOBODY, Fresh(id), Recorded,
                             Decision(SystemOf(r.body, target), target, decision, r.body), Human(actor), w.now);
    var superseded := Supersede(a, Priors(a, target), w.now);
    assert TryInsert(superseded, id, minutes) == Done(Insert(superseded, id, minutes));
    hide TryInsert;
    DecisionWritesKeep(a, id, target, minutes, decision, w.now);
  }

  // ----- authorizations -----

  /** What an allow is about, taken from the eligibility it proves. */
  lemma AllowedGrantIsOk(a: Db, b: Db, principal: Id, id: Id, request: Request, w: World, t: string)
    requires RecordsOk(a) && Later(a, b) && IsIntegration(a, principal) && id in b.records && t in b.permits
    requires Evaluate(a, principal, request, w).Done?
    requires b.permits[t].grant == id && b.records[id].key == Fresh(id) && b.records[id].integration == principal
    requires b.records[id].place == a.records[principal].place
    requires var verdict, revision := Evaluate(a, principal, request, w).value, a.records[request.revision].body;
      && verdict.outcome == Allow && b.records[id].state == Evaluated(Allow)
      && b.records[id].body == Authorization(revision.system, request.revision, OfManifest(revision.manifest),
                                             verdict.policyId, Allow, request)
    ensures RecordOk(b, id)
  {
    hide CapabilityOf, RecordsOk;
    AllowsExactlyEligible(a, principal, request, w);
    hide Evaluate;
    var policyId := Evaluate(a, principal, request, w).value.policyId.value;
    KeptAt(a, b, principal);
    KeptAt(a, b, request.revision);
    KeptAt(a, b, policyId);
    assert policyId in ActivePolicies(a, a.records[request.revision].body.system);
    if request.action.Some? {
      assert ActionPermitted(request.action.value, request.purpose, a.records[principal].body.capabilities,
                             a.records[request.revision].body.manifest, a.records[policyId].body.policy);
    }
  }

  lemma RefusedGrantIsOk(b: Db, principal: Id, id: Id, request: Request)
    requires IsIntegration(b, principal) && IsRevision(b, request.revision) && id in b.records
    requires var r, revision := b.records[id], b.records[request.revision].body;
      && r.body.Authorization? && r.key == Fresh(id) && r.integration == principal
      && r.place == b.records[principal].place
      && r.body.outcome != Allow && r.state == Evaluated(r.body.outcome)
      && r.body == Authorization(revision.system, request.revision, OfManifest(revision.manifest),
                                 r.body.policyId, r.body.outcome, request)
    ensures RecordOk(b, id)
  {
  }

  /** What issuing writes: one fresh grant holding the verdict and, for an allow, one fresh permit. */
  lemma IssueWrites(a: Db, principal: Id, id: Id, token: string, request: Request, w: World)
    requires id !in a.records && token !in a.permits && Issue(a, principal, id, token, request, w).Done?
    ensures IsIntegration(a, principal) && Evaluate(a, principal, request, w).Done? && IsRevision(a, request.revision)
    ensures var b := Issue(a, principal, id, token, request, w).value;
      && id in b.records && TryInsert(a, id, b.records[id]).Done?
      && var r, revision := b.records[id], a.records[request.revision].body;
      var verdict := Evaluate(a, principal, request, w).value;
      && r.key == Fresh(id) && r.integration == principal && !r.audited
      && r.state == Evaluated(verdict.outcome)
      && r.body == Authorization(revision.system, request.revision, OfManifest(revision.manifest), verdict.policyId,
                                 verdict.outcome, request)
      && (verdict.outcome != Allow ==> b == Insert(a, id, r))
      && r.createdAt == w.now && r.place == a.records[principal].place
      && (verdict.outcome == Allow ==>
            && verdict.policyId.Some? && verdict.policyId.value in a.records
            && a.records[verdict.policyId.value].body.RuntimePolicy?
            && token in b.permits && b.permits[token].grant == id && b.permits[token].consumedAt == None
            && b.permits[token].expiresAt == w.now + a.records[verdict.policyId.value].body.policy.permitTtl
            && b == Insert(a, id, r).(permits := a.permits[token := b.permits[token]]))
  {
    assert Evaluate(a, principal, request, w).Done? ==> IsRevision(a, request.revision);
    hide Evaluate;
  }

  lemma IssueKeeps(a: Db, principal: Id, id: Id, token: string, request: Request, w: World)
    requires Sound(a) && id !in a.records && token !in a.permits
    requires Issue(a, principal, id, token, request, w).Done?
    ensures var b := Issue(a, principal, id, token, request, w).value; Sound(b) && Later(a, b)
  {
    AllRecordsOk(a);
    hide Sound, RecordsOk, RecordOk, Evaluate, Later, IsActivePolicy;
    var b := Issue(a, principal, id, token, request, w).value;
    IssueWrites(a, principal, id, token, request, w);
    hide Issue, TryInsert;
    var r := b.records[id];
    InsertIsLater(a, id, r);
    if r.body.outcome == Allow {
      GrantIsLater(a, b, id, token);
      AllowedGrantIsOk(a, b, principal, id, request, w, token);
      GrantTablesKept(a, b, id, token);
    } else {
      RefusedGrantIsOk(b, principal, id, request);
      assert !IsActivePolicy(r) by { NotAPolicy(r); }
      InsertKeeps(a, id, r);
    }
  }

  lemma NotAPolicy(r: Record)
    requires !r.body.RuntimePolicy?
    ensures !IsActivePolicy(r)
  {
  }

  lemma GrantIsLater(a: Db, b: Db, id: Id, token: string)
    requires id !in a.records && token !in a.permits && id in b.records && token in b.permits
    requires b == Insert(a, id, b.records[id]).(permits := a.permits[token := b.permits[token]])
    ensures Later(a, b)
  {
  }

  lemma AllRecordsOk(a: Db)
    requires Sound(a)
    ensures RecordsOk(a)
  {
  }

  /** A fresh grant with a fresh permit disturbs no table. */
  lemma {:induction false} GrantTablesKept(a: Db, b: Db, id: Id, token: string)
    requires Sound(a) && id !in a.records && token !in a.permits && id in b.records && token in b.permits
    requires TryInsert(a, id, b.records[id]).Done? && !b.records[id].audited
    requires b == Insert(a, id, b.records[id]).(permits := a.permits[token := b.permits[token]])
    requires b.records[id].body.Authorization? && b.records[id].body.outcome == Allow
    requires b.records[id].state == Evaluated(Allow)
    requires b.permits[token].grant == id && b.permits[token].consumedAt == None
    requires b.records[id].body.policyId.Some? && b.records[id].body.policyId.value in a.records
    requires a.records[b.records[id].body.policyId.value].body.RuntimePolicy?
    requires b.permits[token].expiresAt
             == b.records[id].createdAt + a.records[b.records[id].body.policyId.value].body.policy.permitTtl
    requires Later(a, b) && RecordOk(b, id)
    ensures Sound(b)
  {
    hide Sound, RecordsOk, RecordOk, Later, CanBecome, OneActivePolicy, KeysUnique, PermitsOk, PermitOk, AnchorsOk;
    SoundParts(a);
    RecordsAfter(a, b, {id});
    ActiveFrame(a, b);
    InsertedKeys(a, id, b.records[id]);
    KeysFrame(Insert(a, id, b.records[id]), b);
    AnchorsFrame(a, b);
    GrantPermits(a, b, id, token);
    SoundFrom(b);
  }

  lemma GrantPermits(a: Db, b: Db, id: Id, token: string)
    requires PermitsOk(a) && id !in a.records && token !in a.permits && id in b.records && token in b.permits
    requires b == Insert(a, id, b.records[id]).(permits := a.permits[token := b.permits[token]])
    requires b.records[id].body.Authorization? && b.records[id].body.outcome == Allow
    requires b.records[id].state == Evaluated(Allow)
    requires b.permits[token].grant == id && b.permits[token].consumedAt == None
    requires b.records[id].body.policyId.Some? && b.records[id].body.policyId.value in a.records
    requires a.records[b.records[id].body.policyId.value].body.RuntimePolicy?
    requires b.permits[token].expiresAt
             == b.records[id].createdAt + a.records[b.records[id].body.policyId.value].body.policy.permitTtl
    ensures PermitsOk(b)
  {
    forall t <- a.permits
      ensures PermitOk(b, t) && a.permits[t].grant != id
    {
      assert PermitOk(a, t);
    }
    assert PermitOk(b, token);
  }

  lemma ConsumeKeeps(a: Db, principal: Id, token: string, request: Request, w: World)
    requires Sound(a) && Consume(a, principal, token, request, w).Done?
    ensures var b := Consume(a, principal, token, request, w).value; Sound(b) && Later(a, b)
  {
    hide Evaluate;
    assert ConsumptionFault(a, principal, token, request, w) == None;
    var g := a.permits[token].grant;
    var b := Consume(a, principal, token, request, w).value;
    var stamped := a.permits[token].(consumedAt := Some(w.now));
    assert a.records[g].audited && w.now < stamped.expiresAt && a.permits[token].consumedAt == None;
    assert b == SetState(a.(permits := a.permits[token := stamped]), g, Consumed, None, w.now);
    hide ConsumptionFault, Consume;
    ConsumptionWritesKeep(a, b, g, token, w.now);
  }

  lemma ConsumptionRecords(a: Db, b: Db, g: Id, token: string, now: Time)
    requires Sound(a) && g in a.records && a.records[g].body.Authorization? && a.records[g].audited
    requires token in a.permits && a.permits[token].grant == g && a.permits[token].consumedAt == None
    requires now < a.permits[token].expiresAt
    requires b == SetState(a.(permits := a.permits[token := a.permits[token].(consumedAt := Some(now))]),
                           g, Consumed, None, now)
    ensures a.records[g].state == Evaluated(Allow) && PermitOk(a, token) && RecordsOk(b) && Later(a, b)
  {
    hide Sound, RecordsOk, Later, PermitsOk, CapabilityOf;
    SoundParts(a);
    PermitAt(a, token);
    RecordAt(a, g);
    assert a.records[g].state == Evaluated(Allow);
    hide RecordOk, PermitOk;
    ConsumptionIsLater(a, b, g, token, now);
    GrantConsumedIsOk(a, b, g);
    RecordsAfter(a, b, {g});
  }

  lemma ConsumptionIsLater(a: Db, b: Db, g: Id, token: string, now: Time)
    requires g in a.records && a.records[g].body.Authorization? && a.records[g].state == Evaluated(Allow)
    requires token in a.permits && a.permits[token].grant == g && a.permits[token].consumedAt == None
    requires b == SetState(a.(permits := a.permits[token := a.permits[token].(consumedAt := Some(now))]),
                           g, Consumed, None, now)
    ensures Later(a, b)
  {
  }

  lemma ConsumptionWritesKeep(a: Db, b: Db, g: Id, token: string, now: Time)
    requires Sound(a) && g in a.records && a.records[g].body.Authorization? && a.records[g].audited
    requires token in a.permits && a.permits[token].grant == g && a.permits[token].consumedAt == None
    requires now < a.permits[token].expiresAt
    requires b == SetState(a.(permits := a.permits[token := a.permits[token].(consumedAt := Some(now))]),
                           g, Consumed, None, now)
    ensures Sound(b) && Later(a, b)
  {
    hide Sound, RecordsOk, RecordOk, Later, CanBecome, OneActivePolicy, KeysUnique, PermitsOk, PermitOk, AnchorsOk;
    SoundParts(a);
    ConsumptionRecords(a, b, g, token, now);
    ConsumptionPermits(a, b, g, token, now);
    ActiveFrame(a, b);
    KeysFrame(a, b);
    AnchorsFrame(a, b);
    SoundFrom(b);
  }

  lemma ConsumptionPermits(a: Db, b: Db, g: Id, token: string, now: Time)
    requires PermitsOk(a) && AnchorsOk(a) && g in a.records && a.records[g].body.Authorization? && a.records[g].audited
    requires a.records[g].state == Evaluated(Allow) && token in a.permits && PermitOk(a, token)
    requires a.permits[token].grant == g && a.permits[token].consumedAt == None && now < a.permits[token].expiresAt
    requires b == SetState(a.(permits := a.permits[token := a.permits[token].(consumedAt := Some(now))]),
                           g, Consumed, None, now)
    ensures PermitsOk(b)
  {
    assert EntryOf(g, a.records[g]) in a.trail;
    assert PermitOk(b, token);
    assert forall t <- a.permits :: PermitOk(a, t) && t != token ==> PermitOk(b, t);
  }

  lemma GrantConsumedIsOk(a: Db, b: Db, g: Id)
    requires g in a.records && a.records[g].body.Authorization? && RecordOk(a, g) && a.records[g].body.outcome == Allow
    requires Later(a, b) && b.records[g].state == Consumed && b.records[g].body == a.records[g].body
    ensures RecordOk(b, g)
  {
    hide CapabilityOf;
    var r := a.records[g];
    KeptAt(a, b, g);
    KeptAt(a, b, r.integration);
    KeptAt(a, b, r.body.revision);
    KeptAt(a, b, r.body.policyId.value);
    var t :| t in a.permits && a.permits[t].grant == g;
    assert t in b.permits && b.permits[t].grant == g;
  }
}
