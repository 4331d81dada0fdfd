/** The portable governance store (storage/portable.py) for one tenant, whose mutations are serialized:
    records with a kind-specific body, permit credentials, and the audit trail that anchors states. */
module PortableRecords {

  import opened Common

  type Id = int
  type Time = int

  // ----- request contracts (schemas/portable.py) -----

  datatype Json =
    | JNull
    | JBool(b: bool)
    | JInt(i: int)
    | JNumber(r: real)
    | JText(s: string)
    | JArray(items: seq<Json>)
    | JObject(members: map<string, Json>)

  /** What Python's == cannot tell apart: true, 1 and 1.0 are one value. */
  function Normal(j: Json): Json {
    match j
    case JBool(b) => JNumber(if b then 1.0 else 0.0)
    case JInt(i) => JNumber(i as real)
    case JArray(items) => JArray(seq(|items|, i requires 0 <= i < |items| => Normal(items[i])))
    case JObject(members) => JObject(map k | k in members :: Normal(members[k]))
    case _ => j
  }

  function NormalAll(parameters: map<string, Json>): map<string, Json> {
    map k | k in parameters :: Normal(parameters[k])
  }

  datatype ParameterType = TextType | NumberType | BooleanType

  predicate HasType(value: Json, t: ParameterType) {
    match t
    case TextType => value.JText? && |value.s| <= 2000
    case BooleanType => value.JBool?
    case NumberType => value.JInt? || value.JNumber?
  }

  datatype Capability = Capability(name: string, parameterTypes: map<string, ParameterType>, verificationCheck: string)

  datatype Action = Action(capability: string, resource: string, parameters: map<string, Json>)

  datatype Purpose = Release | Runtime | Remediation

  datatype Request = Request(revision: Id, purpose: Purpose, action: Option<Action>)

  datatype Manifest = Manifest(
    revision: string, artifact: string, models: set<string>, tools: set<string>, resources: set<string>,
    promptRefs: set<string>, autonomy: nat, untrustedInput: bool, sensitiveData: bool, externalAction: bool,
    humanCheckpoint: bool)

  datatype Policy = Policy(
    models: set<string>, tools: set<string>, resources: set<string>, actions: set<string>,
    remediationActions: set<string>, actionParameters: map<string, map<string, Json>>, maxAutonomy: nat,
    allowExternalAction: bool, requireHumanCheckpoint: bool, allowRoutineReleases: bool,
    requiredChecks: seq<string>, trustedSources: seq<Id>, evidenceMaxAge: int, permitTtl: int)

  datatype EvidenceResult = Passing | Failed | Unknown

  datatype AccessScope =
    | SystemsRead | SystemsWrite | RevisionsWrite | ObservationsWrite | AuthorizationsRequest | ReceiptsWrite

  // ----- records -----

  /** SHA-256 over canonical text, as an injective constructor per kind of content; `OfText` is a digest
      a caller typed in. */
  datatype Digest = OfManifest(manifest: Manifest) | OfRequest(request: Request) | OfText(text: string)

  datatype Outcome = Allow | Deny | RequiresReview | Indeterminate

  datatype DecisionKind = ApproveSystem | ApproveRevision | ActivatePolicy | RetireSystem

  datatype Actor = Human(ref: string) | Machine(integration: Id)

  datatype Body =
    | Integration(scopes: set<AccessScope>, capabilities: seq<Capability>)
    | System(displayName: string, resourceType: string, externalName: string, purpose: string, legacy: Option<string>)
    | Revision(system: Id, manifest: Manifest)
    | Observation(system: Id, name: string, check: string, result: EvidenceResult, observedAt: Time,
                  revisionDigest: Digest, evidenceRef: string, actionDigest: Option<Digest>, resource: Option<string>)
    | RuntimePolicy(system: Id, policy: Policy)
    | Authorization(system: Id, revision: Id, manifestDigest: Digest, policyId: Option<Id>, outcome: Outcome,
                    request: Request)
    | Decision(system: Id, target: Id, decision: DecisionKind, snapshot: Body)
    | Receipt(system: Id, authorization: Id, executed: bool, evidenceRef: string, verificationAfter: Time,
              revision: Id, policyId: Option<Id>, purposeOf: Purpose)
    | Verification(system: Id, receipt: Id, observation: Id)

  datatype State =
    | Active | Revoked | Planned | Approved | Retired | PendingReview | Recorded | Draft | Superseded
    | Evaluated(outcome: Outcome) | Consumed | ReportedExecuted | VerificationPending | FailedState | Verified

  /** The natural keys of `external_id`, which are digests of their parts; `Fresh` is a random one. */
  datatype ExternalKey =
    | SystemKey(resourceType: string, name: string)
    | RevisionKey(system: Id, name: string)
    | ObservationKey(system: Id, name: string)
    | ReceiptKey(authorization: Id)
    | VerificationKey(receipt: Id)
    | Fresh(n: Id)

  datatype Place = Place(project: string, environment: string)

  const NOBODY: Id := -1

  datatype Record = Record(
    place: Place, integration: Id, key: ExternalKey, state: State, body: Body, createdBy: Actor,
    createdAt: Time, updatedAt: Time, audited: bool, decisionId: Option<Id>)

  /** A permit; integration tokens stay outside the model. */
  datatype Permit = Permit(grant: Id, expiresAt: Time, consumedAt: Option<Time>)

  /** What a hash-chained audit entry says of a record. */
  datatype TrailEntry = TrailEntry(id: Id, state: State, body: Body, decisionId: Option<Id>)

  datatype Db = Db(records: map<Id, Record>, permits: map<string, Permit>, trail: set<TrailEntry>)

  function NewRecord(place: Place, integration: Id, key: ExternalKey, state: State, body: Body, createdBy: Actor,
                     now: Time): Record {
    Record(place, integration, key, state, body, createdBy, now, now, false, None)
  }

  /** `store.insert`: a new, unaudited record. */
  function Insert(db: Db, id: Id, record: Record): Db {
    db.(records := db.records[id := record])
  }

  /** `store.set_state`: the new state is unaudited until it is anchored. */
  function SetState(db: Db, id: Id, state: State, decisionId: Option<Id>, now: Time): Db
    requires id in db.records
  {
    var r := db.records[id];
    db.(records := db.records[id := r.(state := state, updatedAt := now, audited := false,
                                       decisionId := if decisionId.Some? then decisionId else r.decisionId)])
  }

  // ----- ordered queries -----

  /** ORDER BY created_at DESC, record_id. */
  predicate Newer(db: Db, a: Id, b: Id)
    requires a in db.records && b in db.records
  {
    db.records[a].createdAt > db.records[b].createdAt
    || (db.records[a].createdAt == db.records[b].createdAt && a < b)
  }

  predicate IsNewest(db: Db, a: Id, ids: set<Id>)
    requires ids <= db.records.Keys
  {
    a in ids && forall b <- ids :: b == a || Newer(db, a, b)
  }

  lemma {:induction false} NewestExists(db: Db, ids: set<Id>)
    requires ids <= db.records.Keys && ids != {}
    ensures exists a :: IsNewest(db, a, ids)
  {
    var a := AnyOf(ids);
    if ids == {a} {
      assert IsNewest(db, a, ids);
    } else {
      NewestExists(db, ids - {a});
      var b :| IsNewest(db, b, ids - {a});
      if Newer(db, a, b) {
        forall c | c in ids && c != a
          ensures Newer(db, a, c)
        {
          assert c in ids - {a};
        }
        assert IsNewest(db, a, ids);
      } else {
        assert IsNewest(db, b, ids);
      }
    }
  }

  lemma NewestUnique(db: Db, a: Id, b: Id, ids: set<Id>)
    requires ids <= db.records.Keys && IsNewest(db, a, ids) && IsNewest(db, b, ids)
    ensures a == b
  {
  }

  /** LIMIT 1 of that order. */
  function Newest(db: Db, ids: set<Id>): (id: Option<Id>)
    requires ids <= db.records.Keys
    ensures id == None <==> ids == {}
    ensures id.Some? ==> IsNewest(db, id.value, ids)
  {
    if ids == {} then None
    else
      NewestExists(db, ids);
      assert forall a, b :: IsNewest(db, a, ids) && IsNewest(db, b, ids) ==> a == b;
      var a :| a in ids && IsNewest(db, a, ids);
      Some(a)
  }

  function ActivePolicies(db: Db, system: Id): set<Id> {
    set id | id in db.records && db.records[id].body.RuntimePolicy? && db.records[id].state == Active
             && db.records[id].body.system == system
  }

  /** `active_policy`. */
  function ActivePolicy(db: Db, system: Id): (id: Option<Id>)
    ensures id.Some? ==> id.value in ActivePolicies(db, system)
  {
    Newest(db, ActivePolicies(db, system))
  }

  function ReleaseReceipts(db: Db, system: Id, revision: Id, policyId: Id): set<Id> {
    set id | id in db.records && db.records[id].body.Receipt? && db.records[id].body.system == system
             && db.records[id].body.revision == revision && db.records[id].body.policyId == Some(policyId)
             && db.records[id].body.purposeOf == Release
  }

  /** The newest release receipt of a revision under a policy reports an executed release, audited. */
  predicate ReleaseWasExecuted(db: Db, system: Id, revision: Id, policyId: Id) {
    var newest := Newest(db, ReleaseReceipts(db, system, revision, policyId));
    newest.Some? && db.records[newest.value].audited && db.records[newest.value].body.executed
  }

  // ----- the decisive observation -----

  predicate AreObservations(db: Db, ids: set<Id>) {
    forall id <- ids :: id in db.records && db.records[id].body.Observation?
  }

  /** Observations of a check bound to the revision, from a trusted source that is still active. */
  function Candidates(db: Db, system: Id, digest: Digest, check: string, sources: seq<Id>): (ids: set<Id>)
    ensures AreObservations(db, ids)
  {
    set id | id in db.records && db.records[id].body.Observation? && db.records[id].body.system == system
             && db.records[id].body.revisionDigest == digest && db.records[id].body.check == check
             && db.records[id].integration in sources
             && db.records[id].integration in db.records
             && db.records[db.records[id].integration].body.Integration?
             && db.records[db.records[id].integration].state == Active
  }

  function Rank(result: EvidenceResult): nat {
    match result case Failed => 0 case Unknown => 1 case Passing => 2
  }

  /** ORDER BY observed_at DESC, failed before unknown before passing, created_at DESC, record_id. */
  predicate Outweighs(db: Db, a: Id, b: Id)
    requires a in db.records && b in db.records
    requires db.records[a].body.Observation? && db.records[b].body.Observation?
  {
    var x, y := db.records[a].body, db.records[b].body;
    x.observedAt > y.observedAt
    || (x.observedAt == y.observedAt
        && (Rank(x.result) < Rank(y.result) || (Rank(x.result) == Rank(y.result) && Newer(db, a, b))))
  }

  predicate IsDecisive(db: Db, a: Id, ids: set<Id>)
    requires AreObservations(db, ids)
  {
    a in ids && forall b <- ids :: b == a || Outweighs(db, a, b)
  }

  lemma {:induction false} DecisiveExists(db: Db, ids: set<Id>)
    requires AreObservations(db, ids) && ids != {}
    ensures exists a :: IsDecisive(db, a, ids)
  {
    var a := AnyOf(ids);
    if ids == {a} {
      assert IsDecisive(db, a, ids);
    } else {
      DecisiveExists(db, ids - {a});
      var b :| IsDecisive(db, b, ids - {a});
      if Outweighs(db, a, b) {
        forall c | c in ids && c != a
          ensures Outweighs(db, a, c)
        {
          assert c in ids - {a};
        }
        assert IsDecisive(db, a, ids);
      } else {
        assert IsDecisive(db, b, ids);
      }
    }
  }

  function Decisive(db: Db, ids: set<Id>): (id: Option<Id>)
    requires AreObservations(db, ids)
    ensures id == None <==> ids == {}
    ensures id.Some? ==> IsDecisive(db, id.value, ids)
  {
    if ids == {} then None
    else
      DecisiveExists(db, ids);
      assert forall a, b :: IsDecisive(db, a, ids) && IsDecisive(db, b, ids) ==> a == b;
      var a :| a in ids && IsDecisive(db, a, ids);
      Some(a)
  }

  /** The decisive observation is at the latest instant, and there a failed result beats an unknown
      one and an unknown one a passing one, whichever was inserted first: only observations that tie
      in both are told apart, by the later creation and then by the smaller id. */
  lemma DecisiveIsLatestAndWorst(db: Db, ids: set<Id>, other: Id)
    requires AreObservations(db, ids) && other in ids
    ensures var d := Decisive(db, ids);
      && d.Some? && d.value in ids
      && var x, y := db.records[d.value].body, db.records[other].body;
      && y.observedAt <= x.observedAt
      && (y.observedAt == x.observedAt ==>
            && (y.result == Failed ==> x.result == Failed)
            && (y.result == Unknown ==> x.result != Passing)
            && (y.result == x.result && other != d.value ==>
                  || db.records[other].createdAt < db.records[d.value].createdAt
                  || (db.records[other].createdAt == db.records[d.value].createdAt && d.value < other)))
  {
  }

  ghost function Bodies(db: Db, ids: set<Id>): set<Body>
    requires AreObservations(db, ids)
  {
    set id | id in ids :: db.records[id].body
  }

  lemma DecidesItsBody(db: Db, ids: set<Id>, body: Body)
    requires AreObservations(db, ids) && body in Bodies(db, ids)
    ensures Decisive(db, ids).Some? && body.Observation?
    ensures var d := db.records[Decisive(db, ids).value].body;
      && d in Bodies(db, ids)
      && (body.observedAt < d.observedAt
          || (body.observedAt == d.observedAt && (body.result == Failed ==> d.result == Failed)
              && (body.result == Unknown ==> d.result != Passing)))
  {
    var id :| id in ids && db.records[id].body == body;
    DecisiveIsLatestAndWorst(db, ids, id);
  }

  /** Storing the same observations at other times, in another order, under other ids, changes neither
      the instant nor the result that decides. */
  lemma InsertionOrderIsIrrelevant(a: Db, p: set<Id>, b: Db, q: set<Id>)
    requires AreObservations(a, p) && AreObservations(b, q)
    requires p != {} && Bodies(a, p) == Bodies(b, q)
    ensures var d, e := Decisive(a, p), Decisive(b, q);
      && d.Some? && e.Some?
      && a.records[d.value].body.observedAt == b.records[e.value].body.observedAt
      && a.records[d.value].body.result == b.records[e.value].body.result
  {
    hide IsDecisive, Outweighs;
    var d := Decisive(a, p).value;
    assert a.records[d].body in Bodies(a, p);
    DecidesItsBody(b, q, a.records[d].body);
    var e := Decisive(b, q).value;
    assert b.records[e].body in Bodies(b, q);
    DecidesItsBody(a, p, b.records[e].body);
  }
}
