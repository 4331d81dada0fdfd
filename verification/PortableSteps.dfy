/** The mutations of the portable protocol (services/portable.py, api/portable.py), each one serialized
    transaction: it either yields the next store or is refused and leaves the store as it was. */
module PortableSteps {

  import opened Common
  import opened PortableRecords
  import opened PortableEvaluate

  /** `store.insert` under the table's unique index. */
  function TryInsert(db: Db, id: Id, record: Record): Answer<Db> {
    if exists i <- db.records :: db.records[i].key == record.key && db.records[i].integration == record.integration
                                 && db.records[i].place == record.place
    then Refused(Crash)
    else Done(Insert(db, id, record))
  }

  /** The record of an integration already filed under a natural key. */
  function Filed(db: Db, integration: Id, key: ExternalKey): (id: Option<Id>)
    ensures id.Some? ==> id.value in db.records && db.records[id.value].integration == integration
                         && db.records[id.value].key == key
    ensures id == None ==> forall i <- db.records :: !(db.records[i].integration == integration && db.records[i].key == key)
  {
    var ids := set i | i in db.records && db.records[i].integration == integration && db.records[i].key == key;
    assert forall i <- db.records :: db.records[i].integration == integration && db.records[i].key == key ==> i in ids;
    Newest(db, ids)
  }

  /** The system of an integration already filed in its project and environment. */
  function FiledSystem(db: Db, integration: Id, key: ExternalKey, place: Place): (id: Option<Id>)
    ensures id.Some? ==> IsSystem(db, id.value) && db.records[id.value].integration == integration
                         && db.records[id.value].key == key && db.records[id.value].place == place
    ensures id == None ==> forall i <- db.records | db.records[i].body.System? ::
              !(db.records[i].integration == integration && db.records[i].key == key && db.records[i].place == place)
  {
    var ids := set i | i in db.records && db.records[i].body.System? && db.records[i].integration == integration
                       && db.records[i].key == key && db.records[i].place == place;
    assert forall i <- db.records | db.records[i].body.System? ::
        db.records[i].integration == integration && db.records[i].key == key && db.records[i].place == place ==> i in ids;
    Newest(db, ids)
  }

  /** The receipt already filed for an authorization, by whomever. */
  function FiledReceipt(db: Db, authorization: Id): (id: Option<Id>)
    ensures id.Some? ==> id.value in db.records && db.records[id.value].body.Receipt?
                         && db.records[id.value].key == ReceiptKey(authorization)
    ensures id == None ==> forall i <- db.records | db.records[i].body.Receipt? ::
              db.records[i].key != ReceiptKey(authorization)
  {
    var ids := set i | i in db.records && db.records[i].body.Receipt? && db.records[i].key == ReceiptKey(authorization);
    assert forall i <- db.records | db.records[i].body.Receipt? ::
        db.records[i].key == ReceiptKey(authorization) ==> i in ids;
    Newest(db, ids)
  }

  /** `source_transaction`: machine work needs a live, anchored integration and a live organization. */
  function SourceClosed(db: Db, principal: Id, w: World): Option<Error> {
    if !IsIntegration(db, principal) then Some(NotFound)
    else if !db.records[principal].audited || db.records[principal].state != Active || !w.organizationActive
    then Some(Forbidden)
    else None
  }

  // ----- registration -----

  function CreateIntegration(db: Db, id: Id, actor: string, permitted: bool, place: Place, scopes: set<AccessScope>,
                             capabilities: seq<Capability>, w: World): Answer<Db>
  {
    if !permitted then Refused(Forbidden)
    else if SystemsRead !in scopes
            || exists i, j :: 0 <= i < j < |capabilities| && capabilities[i].name == capabilities[j].name
    then Refused(Unprocessable)
    else TryInsert(db, id, NewRecord(place, NOBODY, Fresh(id), Active, Integration(scopes, capabilities),
                                     Human(actor), w.now))
  }

  function Revoke(db: Db, id: Id, permitted: bool, w: World): Answer<Db> {
    if !IsIntegration(db, id) then Refused(NotFound)
    else if !permitted then Refused(Forbidden)
    else Done(SetState(db, id, Revoked, None, w.now))
  }

  function Rotate(db: Db, id: Id, permitted: bool, w: World): Answer<Db> {
    if !IsIntegration(db, id) then Refused(NotFound)
    else if !permitted then Refused(Forbidden)
    else if db.records[id].state != Active then Refused(Conflict)
    else Done(SetState(db, id, Active, None, w.now))
  }

  /** Renames are harmless; another purpose or legacy binding sends an approved system back to planned. */
  function SubmitSystem(db: Db, principal: Id, id: Id, displayName: string, resourceType: string,
                        externalName: string, purpose: string, legacy: Option<string>, w: World): Answer<Db>
  {
    var closed := SourceClosed(db, principal, w);
    if closed.Some? then Refused(closed.value)
    else if SystemsWrite !in db.records[principal].body.scopes then Refused(Forbidden)
    else
      var source := db.records[principal];
      var key := SystemKey(resourceType, externalName);
      var body := System(displayName, resourceType, externalName, purpose, legacy);
      var filed := FiledSystem(db, principal, key, source.place);
      if filed == None then
        TryInsert(db, id, NewRecord(source.place, principal, key, Planned, body, Machine(principal), w.now))
      else
        var r := db.records[filed.value];
        var changed := r.body.purpose != purpose || r.body.legacy != legacy;
        var state := if changed && r.state != Retired then Planned else r.state;
        Done(db.(records := db.records[filed.value := r.(body := body, state := state, updatedAt := w.now,
                                                         audited := false)]))
  }

  function SubmitRevision(db: Db, principal: Id, id: Id, system: Id, manifest: Manifest, author: Actor, w: World):
      Answer<Db>
    requires IsIntegration(db, principal)
  {
    var fault := SourceFault(db, principal, system, true);
    if fault.Some? then Refused(fault.value)
    else if ScopeFault(db, principal, RevisionsWrite, system).Some? then
      Refused(ScopeFault(db, principal, RevisionsWrite, system).value)
    else if db.records[system].state == Retired then Refused(Conflict)
    else
      var key := RevisionKey(system, manifest.revision);
      var body := Revision(system, manifest);
      var filed := Filed(db, principal, key);
      if filed == None then
        TryInsert(db, id, NewRecord(db.records[system].place, principal, key, PendingReview, body, author, w.now))
      else if db.records[filed.value].body != body then Refused(Conflict)
      else Done(db)
  }

  function SubmitRevisionByMachine(db: Db, principal: Id, id: Id, system: Id, manifest: Manifest, w: World): Answer<Db> {
    var closed := SourceClosed(db, principal, w);
    if closed.Some? then Refused(closed.value)
    else SubmitRevision(db, principal, id, system, manifest, Machine(principal), w)
  }

  /** A person submits on behalf of an active integration, anchored or not. */
  function SubmitRevisionByHuman(db: Db, actor: string, permitted: bool, principal: Id, id: Id, system: Id,
                                 manifest: Manifest, w: World): Answer<Db>
  {
    if !IsSystem(db, system) then Refused(NotFound)
    else if !permitted then Refused(Forbidden)
    else if !IsIntegration(db, principal) then Refused(NotFound)
    else if db.records[principal].state != Active then Refused(Conflict)
    else SubmitRevision(db, principal, id, system, manifest, Human(actor), w)
  }

  function SubmitObservation(db: Db, principal: Id, id: Id, observation: Body, w: World): Answer<Db>
    requires observation.Observation?
  {
    var closed := SourceClosed(db, principal, w);
    if closed.Some? then Refused(closed.value)
    else
      var system := observation.system;
      var fault := SourceFault(db, principal, system, false);
      if fault.Some? then Refused(fault.value)
      else if ScopeFault(db, principal, ObservationsWrite, system).Some? then
        Refused(ScopeFault(db, principal, ObservationsWrite, system).value)
      else if observation.observedAt > w.now then Refused(Unprocessable)
      else
        var key := ObservationKey(system, observation.name);
        var filed := Filed(db, principal, key);
        if filed == None then
          TryInsert(db, id, NewRecord(db.records[system].place, principal, key, Recorded, observation,
                                      Machine(principal), w.now))
        else if db.records[filed.value].body != observation then Refused(Conflict)
        else Done(db)
  }

  // ----- decisions -----

  /** `ensure_source` over a policy's trusted sources: the fault of the first that is not a live evidence
      source of the target's project and environment. */
  function UntrustedSource(db: Db, sources: seq<Id>, target: Id): Option<Error>
    requires target in db.records
  {
    if sources == [] then None
    else
      var s := sources[0];
      if !IsIntegration(db, s) then Some(NotFound)
      else if ScopeFault(db, s, ObservationsWrite, target).Some? then ScopeFault(db, s, ObservationsWrite, target)
      else if !db.records[s].audited || db.records[s].state != Active then Some(Conflict)
      else UntrustedSource(db, sources[1..], target)
  }

  function DraftPolicy(db: Db, actor: string, permitted: bool, id: Id, system: Id, policy: Policy, w: World): Answer<Db> {
    if !IsSystem(db, system) then Refused(NotFound)
    else if !permitted then Refused(Forbidden)
    else
      var fault := UntrustedSource(db, policy.trustedSources, system);
      if fault.Some? then Refused(fault.value)
      else TryInsert(db, id, NewRecord(db.records[system].place, NOBODY, Fresh(id), Draft,
                                       RuntimePolicy(system, policy), Human(actor), w.now))
  }

  predicate Decides(decision: DecisionKind, body: Body) {
    match decision
    case ApproveSystem => body.System?
    case ApproveRevision => body.Revision?
    case ActivatePolicy => body.RuntimePolicy?
    case RetireSystem => body.System?
  }

  function Decided(decision: DecisionKind): State {
    match decision
    case ApproveSystem => Approved
    case ApproveRevision => Approved
    case ActivatePolicy => Active
    case RetireSystem => Retired
  }

  predicate Terminal(target: Record, decision: DecisionKind) {
    || (target.body.RuntimePolicy? && target.state != Draft)
    || ((target.body.System? || target.body.Revision?) && (target.state == Approved || target.state == Retired)
        && !(decision == RetireSystem && target.state == Approved))
  }

  /** The fault of `evaluate`'s release answer for a revision under review. */
  function ReviewFault(db: Db, revision: Id, w: World): Option<Error>
    requires IsRevision(db, revision)
  {
    var executor := db.records[revision].integration;
    if !IsIntegration(db, executor) then Some(NotFound)
    else
      var answer := Evaluate(db, executor, Request(revision, Release, None), w);
      if answer.Refused? then Some(answer.error)
      else if (answer.value.outcome == Allow || answer.value.outcome == RequiresReview)
              && (answer.value.reasons == [] || answer.value.reasons == [RevisionRequiresReview])
      then None
      else Some(Conflict)
  }

  /** Why a decision is refused, in the order of the checks. */
  function DecisionFault(db: Db, actor: string, permitted: bool, target: Id, decision: DecisionKind, expected: Body,
                         w: World): Option<Error>
  {
    if target !in db.records then Some(NotFound)
    else
      var r := db.records[target];
      if !Decides(decision, r.body) then Some(Unprocessable)
      else if !permitted then Some(Forbidden)
      else if r.body != expected then Some(Conflict)
      else if decision == ApproveSystem && r.body.purpose == "" then Some(Conflict)
      else if r.createdBy == Human(actor) then Some(Forbidden)
      else if Terminal(r, decision) then Some(Conflict)
      else if r.body.Revision? then ReviewFault(db, target, w)
      else if r.body.RuntimePolicy? then UntrustedSource(db, r.body.policy.trustedSources, target)
      else None
  }

  /** The policies a newly activated one supersedes. */
  function Priors(db: Db, target: Id): set<Id>
    requires target in db.records
  {
    var r := db.records[target];
    if !r.body.RuntimePolicy? then {}
    else set i | i in ActivePolicies(db, r.body.system) && db.records[i].place == r.place
  }

  function Supersede(db: Db, priors: set<Id>, now: Time): Db {
    db.(records := map i | i in db.records ::
          if i in priors then db.records[i].(state := Superseded, updatedAt := now, audited := false)
          else db.records[i])
  }

  function SystemOf(body: Body, id: Id): Id {
    match body
    case Revision(system, _) => system
    case RuntimePolicy(system, _) => system
    case _ => id
  }

  function Decide(db: Db, actor: string, permitted: bool, id: Id, target: Id, decision: DecisionKind, expected: Body,
                  w: World): Answer<Db>
  {
    var fault := DecisionFault(db, actor, permitted, target, decision, expected, w);
    if fault.Some? then Refused(fault.value)
    else
      var r := db.records[target];
      var minutes := NewRecord(r.place, NOBODY, Fresh(id), Recorded,
                               Decision(SystemOf(r.body, target), target, decision, r.body), Human(actor), w.now);
      var filed := TryInsert(Supersede(db, Priors(db, target), w.now), id, minutes);
      if filed.Refused? then filed
      else Done(SetState(filed.value, target, Decided(decision), Some(id), w.now))
  }

  // ----- authorizations -----

  function Issue(db: Db, principal: Id, id: Id, token: string, request: Request, w: World): Answer<Db> {
    var closed := SourceClosed(db, principal, w);
    if closed.Some? then Refused(closed.value)
    else if AuthorizationsRequest !in db.records[principal].body.scopes then Refused(Forbidden)
    else
      var answer := Evaluate(db, principal, request, w);
      if answer.Refused? then Refused(answer.error)
      else
        var verdict := answer.value;
        var revision := db.records[request.revision].body;
        var body := Authorization(revision.system, request.revision, OfManifest(revision.manifest), verdict.policyId,
                                  verdict.outcome, request);
        var filed := TryInsert(db, id, NewRecord(db.records[principal].place, principal, Fresh(id),
                                                 Evaluated(verdict.outcome), body, Machine(principal), w.now));
        if filed.Refused? || verdict.outcome != Allow then filed
        else if verdict.policyId == None || verdict.policyId.value !in db.records
                || !db.records[verdict.policyId.value].body.RuntimePolicy? then Refused(NotFound)
        else
          var expires := w.now + db.records[verdict.policyId.value].body.policy.permitTtl;
          Done(filed.value.(permits := db.permits[token := Permit(id, expires, None)]))
  }

  /** Why a permit cannot be consumed, in the order of the checks. */
  function ConsumptionFault(db: Db, principal: Id, token: string, request: Request, w: World): Option<Error> {
    var closed := SourceClosed(db, principal, w);
    if closed.Some? then closed
    else if AuthorizationsRequest !in db.records[principal].body.scopes then Some(Forbidden)
    else if token !in db.permits then Some(NotFound)
    else
      var permit := db.permits[token];
      if permit.grant !in db.records || !db.records[permit.grant].body.Authorization? then Some(NotFound)
      else
        var grant := db.records[permit.grant];
        if grant.integration != principal then Some(NotFound)
        else if !grant.audited then Some(Conflict)
        else if permit.consumedAt.Some? || permit.expiresAt <= w.now then Some(Conflict)
        else if OfRequest(request) != OfRequest(grant.body.request) then Some(Conflict)
        else
          var current := Evaluate(db, principal, request, w);
          if current.Refused? then Some(current.error)
          else if current.value.outcome != Allow || current.value.policyId != grant.body.policyId then Some(Conflict)
          else None
  }

  function Consume(db: Db, principal: Id, token: string, request: Request, w: World): Answer<Db> {
    var fault := ConsumptionFault(db, principal, token, request, w);
    if fault.Some? then Refused(fault.value)
    else
      var permit := db.permits[token];
      var stamped := db.(permits := db.permits[token := permit.(consumedAt := Some(w.now))]);
      Done(SetState(stamped, permit.grant, Consumed, None, w.now))
  }

  // ----- receipts -----

  function RecordReceipt(db: Db, principal: Id, id: Id, authorization: Id, executed: bool, evidenceRef: string,
                         w: World): Answer<Db>
  {
    var closed := SourceClosed(db, principal, w);
    if closed.Some? then Refused(closed.value)
    else if ReceiptsWrite !in db.records[principal].body.scopes then Refused(Forbidden)
    else if authorization !in db.records || !db.records[authorization].body.Authorization? then Refused(NotFound)
    else
      var grant := db.records[authorization];
      if grant.integration != principal || grant.state != Consumed || !grant.audited then Refused(Conflict)
      else
        var filed := FiledReceipt(db, authorization);
        if filed.Some? then
          var earlier := db.records[filed.value].body;
          if earlier.authorization != authorization || earlier.executed != executed || earlier.evidenceRef != evidenceRef
          then Refused(Conflict)
          else Done(db)
        else
          var purpose := grant.body.request.purpose;
          var state := if !executed then FailedState
                       else if purpose == Release then ReportedExecuted else VerificationPending;
          TryInsert(db, id, NewRecord(grant.place, principal, ReceiptKey(authorization), state,
                                      Receipt(grant.body.system, authorization, executed, evidenceRef, w.now,
                                              grant.body.revision, grant.body.policyId, purpose),
                                      Machine(principal), w.now))
  }

  /** The first capability of a name, or None where the generator runs dry. */
  function FirstCapability(capabilities: seq<Capability>, name: string): (c: Option<Capability>)
    ensures c.Some? <==> exists i :: 0 <= i < |capabilities| && capabilities[i].name == name
  {
    if capabilities == [] then None
    else if capabilities[0].name == name then Some(capabilities[0])
    else
      var rest := FirstCapability(capabilities[1..], name);
      assert rest.Some? ==> exists i :: 0 <= i < |capabilities[1..]| && capabilities[1..][i].name == name;
      assert forall i :: 0 <= i < |capabilities[1..]| ==> capabilities[1..][i] == capabilities[i + 1];
      assert forall i :: 0 < i < |capabilities| ==> capabilities[i] == capabilities[1..][i - 1];
      rest
  }

  /** Whether an observation speaks of exactly the corrected system, revision, action and resource. */
  predicate Speaks(o: Body, receipt: Body, grant: Body, check: string)
    requires o.Observation? && receipt.Receipt? && grant.Authorization? && grant.request.action.Some?
  {
    && o.system == receipt.system && o.revisionDigest == grant.manifestDigest && o.check == check
    && o.actionDigest == Some(OfRequest(grant.request)) && o.resource == Some(grant.request.action.value.resource)
  }

  /** Why a verification is refused, in the order of the checks; `Crash` where the source would fail on a
      missing capability. */
  function VerificationFault(db: Db, principal: Id, receiptId: Id, observationId: Id, w: World): Option<Error> {
    var closed := SourceClosed(db, principal, w);
    if closed.Some? then closed
    else if ObservationsWrite !in db.records[principal].body.scopes then Some(Forbidden)
    else if receiptId !in db.records || !db.records[receiptId].body.Receipt? then Some(NotFound)
    else if ScopeFault(db, principal, ObservationsWrite, receiptId).Some? then
      ScopeFault(db, principal, ObservationsWrite, receiptId)
    else
      var receipt := db.records[receiptId];
      if !receipt.audited || receipt.state != VerificationPending then Some(Conflict)
      else if observationId !in db.records || !db.records[observationId].body.Observation? then Some(NotFound)
      else
        var observation := db.records[observationId];
        if !observation.audited then Some(Conflict)
        else if receipt.integration == principal || observation.integration != principal then Some(Forbidden)
        else if receipt.body.authorization !in db.records
                || !db.records[receipt.body.authorization].body.Authorization? then Some(NotFound)
        else
          var grant := db.records[receipt.body.authorization].body;
          if grant.policyId == None || grant.policyId.value !in db.records
             || !db.records[grant.policyId.value].body.RuntimePolicy? then Some(NotFound)
          else
            var policy := db.records[grant.policyId.value].body.policy;
            if principal !in policy.trustedSources then Some(Forbidden)
            else if grant.request.action == None then Some(Conflict)
            else if !IsIntegration(db, receipt.integration) then Some(NotFound)
            else
              var capability := FirstCapability(db.records[receipt.integration].body.capabilities,
                                                grant.request.action.value.capability);
              if capability == None then Some(Crash)
              else if !Speaks(observation.body, receipt.body, grant, capability.value.verificationCheck) then Some(Conflict)
              else if observation.body.observedAt < receipt.body.verificationAfter
                      || w.now - observation.body.observedAt > policy.evidenceMaxAge then Some(Conflict)
              else None
  }

  function VerifyReceipt(db: Db, principal: Id, id: Id, receiptId: Id, observationId: Id, w: World): Answer<Db> {
    var fault := VerificationFault(db, principal, receiptId, observationId, w);
    if fault.Some? then Refused(fault.value)
    else
      var receipt := db.records[receiptId];
      var observation := db.records[observationId].body;
      var minutes := NewRecord(receipt.place, principal, VerificationKey(receiptId), Recorded,
                               Verification(receipt.body.system, receiptId, observationId), Machine(principal), w.now);
      var filed := TryInsert(db, id, minutes);
      if filed.Refused? then filed
      else Done(SetState(filed.value, receiptId, if observation.result == Passing then Verified else FailedState,
                         None, w.now))
  }

  // ----- anchoring -----

  function EntryOf(id: Id, seen: Record): TrailEntry {
    TrailEntry(id, seen.state, seen.body, seen.decisionId)
  }

  /** `record_audit` appends what the caller saw to the hash-chained log. */
  function Append(db: Db, id: Id, seen: Record): Answer<Db> {
    Done(db.(trail := db.trail + {EntryOf(id, seen)}))
  }

  /** After that append, compare-and-set: only the very state that was logged is marked anchored. */
  function Anchor(db: Db, id: Id, seen: Record): Answer<Db> {
    if EntryOf(id, seen) in db.trail
       && id in db.records && db.records[id].state == seen.state && db.records[id].updatedAt == seen.updatedAt
       && db.records[id].body == seen.body && db.records[id].decisionId == seen.decisionId
    then Done(db.(records := db.records[id := db.records[id].(audited := true)]))
    else Refused(Conflict)
  }
}
