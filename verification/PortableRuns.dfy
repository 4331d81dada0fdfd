/** Whole runs of the portable protocol: every reachable store is sound, and what that means for permits,
    receipts, verifications and approvals. */
module PortableRuns {

  import opened Common
  import opened PortableRecords
  import opened PortableEvaluate
  import opened PortableSteps
  import opened PortableProtocol

  // ----- receipts -----

  lemma RecordReceiptKeeps(a: Db, principal: Id, id: Id, authorization: Id, executed: bool, evidenceRef: string, w: World)
    requires Sound(a) && id !in a.records
    requires RecordReceipt(a, principal, id, authorization, executed, evidenceRef, w).Done?
    ensures var b := RecordReceipt(a, principal, id, authorization, executed, evidenceRef, w).value;
      Sound(b) && Later(a, b)
  {
    hide Sound, Later, RecordOk;
    var b := RecordReceipt(a, principal, id, authorization, executed, evidenceRef, w).value;
    if b == a {
      LaterIsReflexive(a);
    } else {
      var grant := a.records[authorization];
      var r := b.records[id];
      assert b == Insert(a, id, r) && TryInsert(a, id, r).Done? && r.body.Receipt? && !r.audited;
      assert id != authorization && b.records[authorization] == grant;
      assert r.key == ReceiptKey(authorization) && r.body.authorization == authorization;
      ReceiptIsOk(b, id);
      InsertIsLater(a, id, r);
      hide RecordReceipt;
      InsertKeeps(a, id, r);
    }
  }

  lemma ReceiptIsOk(b: Db, id: Id)
    requires id in b.records && b.records[id].body.Receipt? && ReceiptOk(b, id)
    ensures RecordOk(b, id)
  {
  }

  lemma VerifyWrites(a: Db, principal: Id, id: Id, receiptId: Id, observationId: Id, w: World)
    requires id !in a.records && VerifyReceipt(a, principal, id, receiptId, observationId, w).Done?
    ensures var b := VerifyReceipt(a, principal, id, receiptId, observationId, w).value;
      && IsVerification(a, b, principal, id, receiptId, observationId, w)
      && TryInsert(a, id, b.records[id]).Done?
      && id in b.records && receiptId in a.records && a.records[receiptId].body.Receipt? && id != receiptId
      && !b.records[id].audited && !b.records[receiptId].audited && !b.records[id].body.RuntimePolicy?
      && SameKey(a.records[receiptId], b.records[receiptId]) && b.records[receiptId].body.Receipt?
      && b == a.(records := a.records[id := b.records[id]][receiptId := b.records[receiptId]])
  {
    assert VerificationFault(a, principal, receiptId, observationId, w) == None;
    FaultlessNames(a, principal, receiptId, observationId, w);
    hide VerificationFault;
  }

  lemma FaultlessNames(a: Db, principal: Id, receiptId: Id, observationId: Id, w: World)
    requires VerificationFault(a, principal, receiptId, observationId, w) == None
    ensures receiptId in a.records && a.records[receiptId].body.Receipt?
    ensures a.records[receiptId].state == VerificationPending
    ensures observationId in a.records && a.records[observationId].body.Observation?
  {
  }

  /** A verification's writes, and what its checks established. */
  predicate IsVerification(a: Db, b: Db, principal: Id, id: Id, receiptId: Id, observationId: Id, w: World) {
    && id !in a.records && VerificationFault(a, principal, receiptId, observationId, w) == None
    && id in b.records && receiptId in b.records && receiptId in a.records && a.records[receiptId].body.Receipt?
    && observationId in a.records && a.records[observationId].body.Observation?
    && var r, o := a.records[receiptId], a.records[observationId];
    && b.records[id] == NewRecord(r.place, principal, VerificationKey(receiptId), Recorded,
                                  Verification(r.body.system, receiptId, observationId), Machine(principal), w.now)
    && b.records[receiptId] == r.(state := if o.body.result == Passing then Verified else FailedState,
                                  updatedAt := w.now, audited := false)
    && b == a.(records := a.records[id := b.records[id]][receiptId := b.records[receiptId]])
  }

  lemma VerificationIsLater(a: Db, b: Db, principal: Id, id: Id, receiptId: Id, observationId: Id, w: World)
    requires IsVerification(a, b, principal, id, receiptId, observationId, w)
    ensures Later(a, b)
  {
    FaultlessNames(a, principal, receiptId, observationId, w);
    hide VerificationFault;
  }

  lemma VerifiedReceiptIsOk(a: Db, b: Db, principal: Id, id: Id, receiptId: Id, observationId: Id, w: World)
    requires IsVerification(a, b, principal, id, receiptId, observationId, w) && RecordOk(a, receiptId)
    ensures RecordOk(b, receiptId)
  {
    hide VerificationFault;
    FaultlessNames(a, principal, receiptId, observationId, w);
    var g := a.records[receiptId].body.authorization;
    assert b.records[g] == a.records[g];
    assert b.records[id].body.Verification? && b.records[id].body.receipt == receiptId;
  }

  lemma NewVerificationIsOk(a: Db, b: Db, principal: Id, id: Id, receiptId: Id, observationId: Id, w: World)
    requires IsVerification(a, b, principal, id, receiptId, observationId, w) && RecordOk(a, receiptId)
    ensures RecordOk(b, id)
  {
    hide FirstCapability;
    FaultlessNames(a, principal, receiptId, observationId, w);
    var g := a.records[receiptId].body.authorization;
    assert b.records[g] == a.records[g] && b.records[observationId] == a.records[observationId];
    var p := a.records[g].body.policyId.value;
    assert b.records[p] == a.records[p];
    assert VerificationOk(b, id);
  }

  lemma VerifyKeeps(a: Db, principal: Id, id: Id, receiptId: Id, observationId: Id, w: World)
    requires Sound(a) && id !in a.records && VerifyReceipt(a, principal, id, receiptId, observationId, w).Done?
    ensures var b := VerifyReceipt(a, principal, id, receiptId, observationId, w).value; Sound(b) && Later(a, b)
  {
    hide Sound, RecordsOk, RecordOk, Later, CanBecome, OneActivePolicy, KeysUnique, PermitsOk, PermitOk,
         VerificationFault, VerifyReceipt, TryInsert, IsVerification, AnchorsOk;
    SoundParts(a);
    var b := VerifyReceipt(a, principal, id, receiptId, observationId, w).value;
    VerifyWrites(a, principal, id, receiptId, observationId, w);
    VerificationIsLater(a, b, principal, id, receiptId, observationId, w);
    RecordAt(a, receiptId);
    VerifiedReceiptIsOk(a, b, principal, id, receiptId, observationId, w);
    NewVerificationIsOk(a, b, principal, id, receiptId, observationId, w);
    RecordsAfter(a, b, {id, receiptId});
    ActiveFrame(a, b);
    PermitsFrame(a, b);
    AnchorsFrame(a, b);
    InsertedKeys(a, id, b.records[id]);
    KeysFrame(Insert(a, id, b.records[id]), b);
    SoundFrom(b);
  }

  // ----- anchoring -----

  lemma AppendKeeps(a: Db, id: Id, seen: Record)
    requires Sound(a)
    ensures var b := Append(a, id, seen).value; Sound(b) && Later(a, b)
  {
    hide Sound, RecordsOk, RecordOk, Later, CanBecome, OneActivePolicy, KeysUnique, PermitsOk, PermitOk, AnchorsOk;
    SoundParts(a);
    var b := Append(a, id, seen).value;
    AppendIsLater(a, id, seen);
    RecordsAfter(a, b, {});
    ActiveFrame(a, b);
    KeysFrame(a, b);
    PermitsFrame(a, b);
    AnchorsFrame(a, b);
    SoundFrom(b);
  }

  lemma AppendIsLater(a: Db, id: Id, seen: Record)
    ensures Later(a, Append(a, id, seen).value)
  {
  }

  lemma AnchorKeeps(a: Db, id: Id, seen: Record)
    requires Sound(a) && Anchor(a, id, seen).Done?
    ensures var b := Anchor(a, id, seen).value; Sound(b) && Later(a, b)
  {
    hide Sound, RecordsOk, RecordOk, Later, CanBecome, OneActivePolicy, KeysUnique, PermitsOk, PermitOk, AnchorsOk;
    SoundParts(a);
    var b := Anchor(a, id, seen).value;
    AnchorWrites(a, id, seen);
    RecordsAfter(a, b, {});
    ActiveFrame(a, b);
    KeysFrame(a, b);
    PermitsFrame(a, b);
    SoundFrom(b);
  }

  lemma AnchorWrites(a: Db, id: Id, seen: Record)
    requires AnchorsOk(a) && Anchor(a, id, seen).Done?
    ensures Later(a, Anchor(a, id, seen).value) && AnchorsOk(Anchor(a, id, seen).value)
  {
  }

  // ----- runs -----

  datatype Event = Event(call: Call, w: World)

  /** A transaction either commits or is rolled back whole. */
  function Next(db: Db, e: Event): Db {
    var answer := Apply(db, e.call, e.w);
    if answer.Done? then answer.value else db
  }

  function Run(db: Db, events: seq<Event>): Db
    decreases |events|
  {
    if events == [] then db else Run(Next(db, events[0]), events[1..])
  }

  /** Along the run, random names do not collide with the ones in use. */
  predicate Fair(db: Db, events: seq<Event>)
    decreases |events|
  {
    events == [] || (NamesAreNew(db, events[0].call) && Fair(Next(db, events[0]), events[1..]))
  }

  const EMPTY := Db(map[], map[], {})

  lemma EmptyIsSound()
    ensures Sound(EMPTY)
  {
  }

  /** Every call keeps the store sound and only moves records forward. */
  lemma {:induction false} StepKeeps(db: Db, e: Event)
    requires Sound(db) && NamesAreNew(db, e.call)
    ensures Sound(Next(db, e)) && Later(db, Next(db, e))
  {
    hide Sound, Later, CreateIntegration, Revoke, Rotate, SubmitSystem, SubmitRevision, SubmitRevisionByMachine,
         SubmitRevisionByHuman, SubmitObservation, DraftPolicy, Decide, Issue, Consume, RecordReceipt, VerifyReceipt,
         Append, Anchor;
    LaterIsReflexive(db);
    var w := e.w;
    if Apply(db, e.call, w).Done? {
      match e.call
      case CallCreateIntegration(id, actor, permitted, place, scopes, capabilities) =>
        CreateIntegrationKeeps(db, id, actor, permitted, place, scopes, capabilities, w);
      case CallRevoke(id, permitted) => RevokeKeeps(db, id, permitted, w);
      case CallRotate(id, permitted) => RotateKeeps(db, id, permitted, w);
      case CallSubmitSystem(principal, id, displayName, resourceType, externalName, purpose, legacy) =>
        SubmitSystemKeeps(db, principal, id, displayName, resourceType, externalName, purpose, legacy, w);
      case CallSubmitRevision(principal, id, system, manifest) =>
        ByMachineIsSubmitRevision(db, principal, id, system, manifest, w);
        SubmitRevisionKeeps(db, principal, id, system, manifest, Machine(principal), w);
      case CallSubmitRevisionByHuman(actor, permitted, principal, id, system, manifest) =>
        ByHumanIsSubmitRevision(db, actor, permitted, principal, id, system, manifest, w);
        SubmitRevisionKeeps(db, principal, id, system, manifest, Human(actor), w);
      case CallSubmitObservation(principal, id, system, name, check, result, observedAt, digest, evidenceRef,
                                 actionDigest, resource) =>
        SubmitObservationKeeps(db, principal, id, Observation(system, name, check, result, observedAt, digest,
                                                              evidenceRef, actionDigest, resource), w);
      case CallDraftPolicy(actor, permitted, id, system, policy) =>
        DraftPolicyKeeps(db, actor, permitted, id, system, policy, w);
      case CallDecide(actor, permitted, id, target, decision, expected) =>
        DecideKeeps(db, actor, permitted, id, target, decision, expected, w);
      case CallIssue(principal, id, token, request) => IssueKeeps(db, principal, id, token, request, w);
      case CallConsume(principal, token, request) => ConsumeKeeps(db, principal, token, request, w);
      case CallRecordReceipt(principal, id, authorization, executed, evidenceRef) =>
        RecordReceiptKeeps(db, principal, id, authorization, executed, evidenceRef, w);
      case CallVerifyReceipt(principal, id, receipt, observation) =>
        VerifyKeeps(db, principal, id, receipt, observation, w);
      case CallAppend(id, seen) => AppendKeeps(db, id, seen);
      case CallAnchor(id, seen) => AnchorKeeps(db, id, seen);
    }
  }

  lemma RevokeKeeps(db: Db, id: Id, permitted: bool, w: World)
    requires Sound(db) && Revoke(db, id, permitted, w).Done?
    ensures var b := Revoke(db, id, permitted, w).value; Sound(b) && Later(db, b)
  {
    hide Sound, Later;
    RevokeOrRotateKeeps(db, id, Revoked, w.now);
  }

  lemma RotateKeeps(db: Db, id: Id, permitted: bool, w: World)
    requires Sound(db) && Rotate(db, id, permitted, w).Done?
    ensures var b := Rotate(db, id, permitted, w).value; Sound(b) && Later(db, b)
  {
    hide Sound, Later;
    RevokeOrRotateKeeps(db, id, Active, w.now);
  }

  lemma ByMachineIsSubmitRevision(db: Db, principal: Id, id: Id, system: Id, manifest: Manifest, w: World)
    requires SubmitRevisionByMachine(db, principal, id, system, manifest, w).Done?
    ensures IsIntegration(db, principal)
    ensures SubmitRevisionByMachine(db, principal, id, system, manifest, w)
            == SubmitRevision(db, principal, id, system, manifest, Machine(principal), w)
  {
    hide SubmitRevision;
  }

  lemma ByHumanIsSubmitRevision(db: Db, actor: string, permitted: bool, principal: Id, id: Id, system: Id,
                                manifest: Manifest, w: World)
    requires SubmitRevisionByHuman(db, actor, permitted, principal, id, system, manifest, w).Done?
    ensures IsIntegration(db, principal)
    ensures SubmitRevisionByHuman(db, actor, permitted, principal, id, system, manifest, w)
            == SubmitRevision(db, principal, id, system, manifest, Human(actor), w)
  {
    hide SubmitRevision;
  }

  /** Over any run, from any sound store: it stays sound, bodies other than systems' never change, nobody's
      authorship changes, states only move along their lifecycle, and the audit log only grows. */
  lemma {:induction false} RunKeeps(db: Db, events: seq<Event>)
    requires Sound(db) && Fair(db, events)
    ensures Sound(Run(db, events)) && Later(db, Run(db, events))
    decreases |events|
  {
    hide Sound, Later, Next, NamesAreNew;
    if events == [] {
      LaterIsReflexive(db);
    } else {
      StepKeeps(db, events[0]);
      RunKeeps(Next(db, events[0]), events[1..]);
      LaterIsTransitive(db, Next(db, events[0]), Run(db, events));
    }
  }

  /** What no run undoes: a body (a system's apart), who made it and where it belongs; retirement,
      revocation, supersession, consumption and the outcome of a receipt; an entry of the audit log. */
  lemma HistoryIsFixed(db: Db, events: seq<Event>, id: Id)
    requires Sound(db) && Fair(db, events) && id in db.records
    ensures id in Run(db, events).records && db.trail <= Run(db, events).trail
    ensures var r, s := db.records[id], Run(db, events).records[id];
      && (!r.body.System? ==> s.body == r.body)
      && s.createdBy == r.createdBy && s.createdAt == r.createdAt && s.place == r.place && s.integration == r.integration
      && (r.body.System? && r.state == Retired ==> s.state == Retired)
      && (r.body.Integration? && r.state == Revoked ==> s.state == Revoked)
      && (r.body.RuntimePolicy? && r.state == Superseded ==> s.state == Superseded)
      && (r.body.Authorization? && r.state == Consumed ==> s.state == Consumed)
      && (r.body.Receipt? && r.state != VerificationPending ==> s.state == r.state)
  {
    hide Sound, Fair, Run;
    RunKeeps(db, events);
    KeptAt(db, Run(db, events), id);
  }

  lemma EveryReachableStoreIsSound(events: seq<Event>)
    requires Fair(EMPTY, events)
    ensures Sound(Run(EMPTY, events))
  {
    EmptyIsSound();
    RunKeeps(EMPTY, events);
  }

  // ----- permits -----

  /** A consumption is by the integration the permit was issued to, before it expires, for the very
      request that was issued, with the issued state in the audit log, and only while the request is
      still eligible under the policy that authorized it. */
  lemma ConsumptionIsAuthorized(db: Db, principal: Id, token: string, request: Request, w: World)
    requires Sound(db) && Consume(db, principal, token, request, w).Done?
    ensures token in db.permits && db.permits[token].grant in db.records && IsIntegration(db, principal)
    ensures var permit, grant := db.permits[token], db.records[db.permits[token].grant];
      && grant.body.Authorization? && grant.integration == principal && grant.body.request == request
      && permit.consumedAt == None && w.now < permit.expiresAt
      && TrailEntry(permit.grant, Evaluated(Allow), grant.body, grant.decisionId) in db.trail
      && grant.body.policyId.Some? && Eligible(db, principal, request, grant.body.policyId.value, w)
    ensures var b := Consume(db, principal, token, request, w).value;
      && b.permits == db.permits[token := db.permits[token].(consumedAt := Some(w.now))]
      && b.records.Keys == db.records.Keys && b.trail == db.trail
      && b.records[db.permits[token].grant].state == Consumed && !b.records[db.permits[token].grant].audited
      && forall i <- db.records :: i == db.permits[token].grant || b.records[i] == db.records[i]
  {
    hide Sound, Evaluate, Eligible, AnchorsOk, PermitsOk, RecordsOk, RecordOk;
    assert ConsumptionFault(db, principal, token, request, w) == None;
    AllowsExactlyEligible(db, principal, request, w);
    SoundParts(db);
    PermitAt(db, token);
    AnchorAt(db, db.permits[token].grant);
    RecordAt(db, db.permits[token].grant);
    GrantStates(db, db.permits[token].grant);
  }

  lemma AnchorAt(db: Db, id: Id)
    requires AnchorsOk(db) && id in db.records && db.records[id].audited
    ensures EntryOf(id, db.records[id]) in db.trail
  {
  }

  lemma GrantStates(db: Db, id: Id)
    requires id in db.records && db.records[id].body.Authorization? && RecordOk(db, id)
    ensures db.records[id].state == Evaluated(db.records[id].body.outcome)
            || (db.records[id].body.outcome == Allow && db.records[id].state == Consumed)
  {
  }

  function Consumptions(db: Db, events: seq<Event>, token: string): nat
    decreases |events|
  {
    if events == [] then 0
    else
      (if events[0].call.CallConsume? && events[0].call.token == token && Apply(db, events[0].call, events[0].w).Done?
       then 1 else 0)
      + Consumptions(Next(db, events[0]), events[1..], token)
  }

  lemma ConsumedIsRefused(db: Db, principal: Id, token: string, request: Request, w: World)
    ensures Consume(db, principal, token, request, w).Done? ==>
              && token in db.permits && db.permits[token].consumedAt == None
              && var b := Consume(db, principal, token, request, w).value;
                 token in b.permits && b.permits[token].consumedAt.Some?
  {
    hide Evaluate;
  }

  /** No run consumes a permit twice, whoever presents it and however consumptions interleave with
      anything else. */
  lemma {:induction false} PermitIsConsumedAtMostOnce(db: Db, events: seq<Event>, token: string)
    requires Sound(db) && Fair(db, events)
    ensures Consumptions(db, events, token) <= 1
    ensures token in db.permits && db.permits[token].consumedAt.Some? ==> Consumptions(db, events, token) == 0
    decreases |events|
  {
    hide Sound, Consume, Kept;
    if events != [] {
      var e := events[0];
      StepKeeps(db, e);
      PermitIsConsumedAtMostOnce(Next(db, e), events[1..], token);
      if e.call.CallConsume? && e.call.token == token {
        ConsumedIsRefused(db, e.call.principal, token, e.call.request, e.w);
      }
      PermitStays(db, Next(db, e), token);
    }
  }

  lemma PermitStays(a: Db, b: Db, token: string)
    requires Later(a, b)
    ensures token in a.permits ==> token in b.permits && PermitKept(a.permits[token], b.permits[token])
  {
  }

  // ----- receipts -----

  /** An authorization has at most one receipt. */
  lemma OneReceiptPerGrant(db: Db, r: Id, s: Id)
    requires Sound(db) && r in db.records && s in db.records
    requires db.records[r].body.Receipt? && db.records[s].body.Receipt?
    requires db.records[r].body.authorization == db.records[s].body.authorization
    ensures r == s
  {
    hide RecordsOk;
    SoundParts(db);
    RecordAt(db, r);
    RecordAt(db, s);
    assert SameKey(db.records[r], db.records[s]);
  }

  /** The permit behind a receipt was consumed before it expired, after its grant's issued state was
      anchored; the consumption is anchored too. */
  lemma ReceiptTracesToConsumption(db: Db, r: Id)
    requires Sound(db) && r in db.records && db.records[r].body.Receipt?
    ensures db.records[r].body.authorization in db.records
    ensures var g := db.records[r].body.authorization;
      && db.records[g].body.Authorization? && db.records[g].integration == db.records[r].integration
      && EntryOf(g, db.records[g]) in db.trail && db.records[g].state == Consumed
      && TrailEntry(g, Evaluated(Allow), db.records[g].body, db.records[g].decisionId) in db.trail
      && exists t <- db.permits ::
           && db.permits[t].grant == g && db.permits[t].consumedAt.Some?
           && db.permits[t].consumedAt.value < db.permits[t].expiresAt
  {
    hide RecordsOk, Sound, PermitsOk, AnchorsOk, CapabilityOf;
    SoundParts(db);
    RecordAt(db, r);
    var g := db.records[r].body.authorization;
    RecordAt(db, g);
    AnchorAt(db, g);
    var t :| t in db.permits && db.permits[t].grant == g;
    PermitAt(db, t);
  }

  /** A verification that establishes a receipt: by someone other than the executor whom the authorizing
      policy trusts, from their own anchored passing observation of exactly the authorized action, made
      no earlier than the execution was reported and not stale when it was used. */
  ghost predicate Establishes(db: Db, v: Id, r: Id)
    requires r in db.records && db.records[r].body.Receipt?
    requires db.records[r].body.authorization in db.records
    requires db.records[db.records[r].body.authorization].body.Authorization?
  {
    var receipt, grant := db.records[r], db.records[db.records[r].body.authorization].body;
    && v in db.records && db.records[v].body.Verification? && db.records[v].body.receipt == r
    && db.records[v].integration != receipt.integration
    && grant.policyId.Some? && grant.policyId.value in db.records
    && db.records[grant.policyId.value].body.RuntimePolicy?
    && db.records[v].integration in db.records[grant.policyId.value].body.policy.trustedSources
    && var o := db.records[v].body.observation;
    && o in db.records && db.records[o].body.Observation? && db.records[o].audited
    && EntryOf(o, db.records[o]) in db.trail
    && db.records[o].integration == db.records[v].integration
    && db.records[o].body.result == Passing
    && db.records[o].body.revisionDigest == grant.manifestDigest
    && db.records[o].body.actionDigest == Some(OfRequest(grant.request))
    && receipt.createdAt <= db.records[o].body.observedAt <= db.records[o].createdAt
    && db.records[v].createdAt - db.records[o].body.observedAt
       <= db.records[grant.policyId.value].body.policy.evidenceMaxAge
  }

  /** What the state of a receipt says, in every reachable store: a release that was executed is reported as
      such, what was not executed failed, and an executed action waits until a verification settles it, by
      a passing observation or by one that does not pass. */
  lemma ReceiptStatesAreTrue(events: seq<Event>, r: Id)
    requires Fair(EMPTY, events)
    requires var db := Run(EMPTY, events); r in db.records && db.records[r].body.Receipt?
    ensures var db := Run(EMPTY, events);
      var body, state := db.records[r].body, db.records[r].state;
      && (body.purposeOf == Release && body.executed <==> state == ReportedExecuted)
      && (!body.executed ==> state == FailedState && forall v :: !Settles(db, v, r))
      && (body.executed && body.purposeOf != Release ==>
            && (state == VerificationPending <==> forall v :: !Settles(db, v, r))
            && (state == Verified <==> exists v :: Settles(db, v, r) && ResultOf(db, v) == Passing)
            && (state == FailedState <==> exists v :: Settles(db, v, r) && ResultOf(db, v) != Passing))
  {
    var db := Run(EMPTY, events);
    EveryReachableStoreIsSound(events);
    hide RecordsOk, Sound, PermitsOk, AnchorsOk, Run;
    SoundParts(db);
    RecordAt(db, r);
    forall v | v in db.records && db.records[v].body.Verification? && db.records[v].body.receipt == r
      ensures Settles(db, v, r) && db.records[r].body.executed && db.records[r].body.purposeOf != Release
      ensures db.records[r].state == if ResultOf(db, v) == Passing then Verified else FailedState
    {
      RecordAt(db, v);
    }
  }

  /** A verification of the receipt, by an observation on record. */
  predicate Settles(db: Db, v: Id, r: Id) {
    && v in db.records && db.records[v].body.Verification? && db.records[v].body.receipt == r
    && db.records[v].body.observation in db.records
    && db.records[db.records[v].body.observation].body.Observation?
  }

  function ResultOf(db: Db, v: Id): EvidenceResult
    requires v in db.records && db.records[v].body.Verification?
    requires db.records[v].body.observation in db.records
    requires db.records[db.records[v].body.observation].body.Observation?
  {
    db.records[db.records[v].body.observation].body.result
  }

  lemma VerifiedReceiptIsEstablished(db: Db, r: Id)
    requires Sound(db) && r in db.records && db.records[r].body.Receipt? && db.records[r].state == Verified
    ensures db.records[r].body.authorization in db.records
    ensures db.records[db.records[r].body.authorization].body.Authorization?
    ensures exists v :: Establishes(db, v, r)
  {
    hide RecordsOk, Sound, PermitsOk, AnchorsOk;
    SoundParts(db);
    RecordAt(db, r);
    var v :| v in db.records && db.records[v].body.Verification? && db.records[v].body.receipt == r;
    RecordAt(db, v);
    RecordAt(db, db.records[v].body.observation);
    AnchorAt(db, db.records[v].body.observation);
    assert Establishes(db, v, r);
  }

  // ----- approvals -----

  /** Whatever is approved or in force was decided by a recorded human decision of someone who did not
      create it, about the purpose and binding, the manifest or the policy text it still has. */
  lemma ApprovalsAreCurrent(db: Db, id: Id)
    requires Sound(db) && id in db.records
    requires var r := db.records[id];
      (r.state == Approved && (r.body.System? || r.body.Revision?)) || IsActivePolicy(r)
    ensures var r := db.records[id];
      && r.decisionId.Some? && r.decisionId.value in db.records
      && var d := db.records[r.decisionId.value];
      && d.body.Decision? && d.body.target == id && d.createdBy.Human? && d.createdBy != r.createdBy
      && (if r.body.System? then
            && d.body.decision == ApproveSystem && d.body.snapshot.System?
            && d.body.snapshot.purpose == r.body.purpose && d.body.snapshot.legacy == r.body.legacy
          else d.body.snapshot == r.body)
  {
    hide RecordsOk, Sound;
    SoundParts(db);
    RecordAt(db, id);
    RecordAt(db, db.records[id].decisionId.value);
  }

  /** The query for the policy in force finds the only active one. */
  lemma ActivePolicyIsTheOnlyOne(db: Db, system: Id, p: Id)
    requires Sound(db)
    ensures ActivePolicy(db, system) == Some(p)
            <==> p in db.records && IsActivePolicy(db.records[p]) && db.records[p].body.system == system
  {
    hide RecordsOk, KeysUnique, PermitsOk, AnchorsOk;
    assert p in ActivePolicies(db, system)
           <==> p in db.records && IsActivePolicy(db.records[p]) && db.records[p].body.system == system;
    assert forall q <- ActivePolicies(db, system) :: IsActivePolicy(db.records[q]);
  }

  // ----- nothing breaks -----

  lemma InsertNeverCrashes(db: Db, id: Id, r: Record)
    requires RecordsOk(db) && id !in db.records && r.key == Fresh(id)
    ensures TryInsert(db, id, r).Done?
  {
    hide RecordsOk;
    if i :| i in db.records && db.records[i].key == r.key {
      RecordAt(db, i);
      assert false;
    }
  }

  /** A verification never finds the capability missing or its own entry already filed. */
  lemma VerificationNeverCrashes(db: Db, principal: Id, id: Id, receiptId: Id, observationId: Id, w: World)
    requires RecordsOk(db) && id !in db.records
    ensures VerifyReceipt(db, principal, id, receiptId, observationId, w) != Refused(Crash)
  {
    if VerificationFault(db, principal, receiptId, observationId, w) == Some(Crash) {
      ExecutorHasCapability(db, receiptId);
      assert false;
    }
    if VerificationFault(db, principal, receiptId, observationId, w) == None {
      FaultlessNames(db, principal, receiptId, observationId, w);
      hide VerificationFault;
      NotYetVerified(db, receiptId);
    }
  }

  lemma ExecutorHasCapability(db: Db, receiptId: Id)
    requires RecordsOk(db) && receiptId in db.records && db.records[receiptId].body.Receipt?
    ensures db.records[receiptId].body.authorization in db.records
    ensures var grant := db.records[db.records[receiptId].body.authorization].body;
      && grant.Authorization? && IsIntegration(db, db.records[receiptId].integration)
      && (grant.request.action.Some? ==>
            FirstCapability(db.records[db.records[receiptId].integration].body.capabilities,
                            grant.request.action.value.capability).Some?)
  {
    hide RecordsOk;
    RecordAt(db, receiptId);
    RecordAt(db, db.records[receiptId].body.authorization);
  }

  lemma NotYetVerified(db: Db, receiptId: Id)
    requires RecordsOk(db) && receiptId in db.records && db.records[receiptId].state == VerificationPending
    ensures forall i <- db.records :: db.records[i].key != VerificationKey(receiptId)
  {
    hide RecordsOk;
    forall i <- db.records
      ensures db.records[i].key != VerificationKey(receiptId)
    {
      RecordAt(db, i);
    }
  }

  lemma EvaluateNeverCrashes(db: Db, principal: Id, request: Request, w: World)
    requires IsIntegration(db, principal)
    ensures Evaluate(db, principal, request, w) != Refused(Crash)
  {
    hide Gather, ActionBlockers, ManifestBlockers, ActivePolicy, NeedsReview, LegacyBlockers;
  }

  lemma {:induction false} UntrustedSourceNeverCrashes(db: Db, sources: seq<Id>, target: Id)
    requires target in db.records
    ensures UntrustedSource(db, sources, target) != Some(Crash)
  {
    if sources != [] { UntrustedSourceNeverCrashes(db, sources[1..], target); }
  }

  lemma SubmitSystemNeverCrashes(db: Db, principal: Id, id: Id, displayName: string, resourceType: string,
                                 externalName: string, purpose: string, legacy: Option<string>, w: World)
    requires RecordsOk(db) && id !in db.records
    ensures SubmitSystem(db, principal, id, displayName, resourceType, externalName, purpose, legacy, w) != Refused(Crash)
  {
    hide RecordsOk;
    forall i <- db.records | db.records[i].key.SystemKey?
      ensures db.records[i].body.System?
    {
      RecordAt(db, i);
    }
  }

  lemma RecordReceiptNeverCrashes(db: Db, principal: Id, id: Id, authorization: Id, executed: bool,
                                  evidenceRef: string, w: World)
    requires RecordsOk(db) && id !in db.records
    ensures RecordReceipt(db, principal, id, authorization, executed, evidenceRef, w) != Refused(Crash)
  {
    hide RecordsOk;
    forall i <- db.records | db.records[i].key.ReceiptKey?
      ensures db.records[i].body.Receipt?
    {
      RecordAt(db, i);
    }
    hide RecordOk;
  }

  lemma SubmitRevisionNeverCrashes(db: Db, principal: Id, id: Id, system: Id, manifest: Manifest, author: Actor, w: World)
    requires IsIntegration(db, principal)
    ensures SubmitRevision(db, principal, id, system, manifest, author, w) != Refused(Crash)
  {
  }

  lemma SubmitObservationNeverCrashes(db: Db, principal: Id, id: Id, observation: Body, w: World)
    requires observation.Observation?
    ensures SubmitObservation(db, principal, id, observation, w) != Refused(Crash)
  {
  }

  lemma DecisionFaultNeverCrashes(db: Db, actor: string, permitted: bool, target: Id, decision: DecisionKind,
                                  expected: Body, w: World)
    ensures DecisionFault(db, actor, permitted, target, decision, expected, w) != Some(Crash)
  {
    hide Evaluate, UntrustedSource;
    if target in db.records {
      if db.records[target].body.RuntimePolicy? {
        UntrustedSourceNeverCrashes(db, db.records[target].body.policy.trustedSources, target);
      }
      var executor := db.records[target].integration;
      if IsRevision(db, target) && IsIntegration(db, executor) {
        EvaluateNeverCrashes(db, executor, Request(target, Release, None), w);
      }
    }
  }

  lemma DecideNeverCrashes(db: Db, actor: string, permitted: bool, id: Id, target: Id, decision: DecisionKind,
                           expected: Body, w: World)
    requires Sound(db) && id !in db.records
    ensures Decide(db, actor, permitted, id, target, decision, expected, w) != Refused(Crash)
  {
    hide Sound, RecordsOk, RecordOk, Later, SetState, Supersede, TryInsert, ReviewFault, UntrustedSource, Terminal;
    assert target !in db.records ==> DecisionFault(db, actor, permitted, target, decision, expected, w) == Some(NotFound);
    hide DecisionFault;
    DecisionFaultNeverCrashes(db, actor, permitted, target, decision, expected, w);
    if target in db.records {
      var r := db.records[target];
      var superseded := Supersede(db, Priors(db, target), w.now);
      SupersedeKeeps(db, Priors(db, target), w.now);
      SoundParts(superseded);
      SupersedeNames(db, Priors(db, target), w.now);
      InsertNeverCrashes(superseded, id, NewRecord(r.place, NOBODY, Fresh(id), Recorded,
                                                   Decision(SystemOf(r.body, target), target, decision, r.body),
                                                   Human(actor), w.now));
    }
  }

  lemma SupersedeNames(db: Db, priors: set<Id>, now: Time)
    ensures Supersede(db, priors, now).records.Keys == db.records.Keys
  {
  }

  lemma IssueNeverCrashes(db: Db, principal: Id, id: Id, token: string, request: Request, w: World)
    requires RecordsOk(db) && id !in db.records
    ensures Issue(db, principal, id, token, request, w) != Refused(Crash)
  {
    if IsIntegration(db, principal) && Evaluate(db, principal, request, w).Done? {
      assert IsRevision(db, request.revision);
      var verdict, revision := Evaluate(db, principal, request, w).value, db.records[request.revision].body;
      hide RecordsOk, Evaluate;
      InsertNeverCrashes(db, id, NewRecord(db.records[principal].place, principal, Fresh(id), Evaluated(verdict.outcome),
                                           Authorization(revision.system, request.revision, OfManifest(revision.manifest),
                                                         verdict.policyId, verdict.outcome, request),
                                           Machine(principal), w.now));
      hide TryInsert;
    } else if IsIntegration(db, principal) {
      EvaluateNeverCrashes(db, principal, request, w);
    }
  }

  lemma ConsumeNeverCrashes(db: Db, principal: Id, token: string, request: Request, w: World)
    ensures Consume(db, principal, token, request, w) != Refused(Crash)
  {
    hide Evaluate;
    if IsIntegration(db, principal) { EvaluateNeverCrashes(db, principal, request, w); }
  }

  lemma CreateIntegrationNeverCrashes(db: Db, id: Id, actor: string, permitted: bool, place: Place,
                                      scopes: set<AccessScope>, capabilities: seq<Capability>, w: World)
    requires RecordsOk(db) && id !in db.records
    ensures CreateIntegration(db, id, actor, permitted, place, scopes, capabilities, w) != Refused(Crash)
  {
    hide RecordsOk;
    InsertNeverCrashes(db, id, NewRecord(place, NOBODY, Fresh(id), Active, Integration(scopes, capabilities),
                                         Human(actor), w.now));
  }

  lemma DraftPolicyNeverCrashes(db: Db, actor: string, permitted: bool, id: Id, system: Id, policy: Policy, w: World)
    requires RecordsOk(db) && id !in db.records
    ensures DraftPolicy(db, actor, permitted, id, system, policy, w) != Refused(Crash)
  {
    hide RecordsOk, UntrustedSource;
    if IsSystem(db, system) {
      UntrustedSourceNeverCrashes(db, policy.trustedSources, system);
      InsertNeverCrashes(db, id, NewRecord(db.records[system].place, NOBODY, Fresh(id), Draft,
                                           RuntimePolicy(system, policy), Human(actor), w.now));
    }
  }

  /** No reachable call dies on the unique index or on a missing capability: every refusal is one of the
      protocol's own answers. */
  lemma NothingCrashes(db: Db, e: Event)
    requires Sound(db) && NamesAreNew(db, e.call)
    ensures Apply(db, e.call, e.w) != Refused(Crash)
  {
    hide Sound, RecordsOk, CreateIntegration, SubmitSystem, SubmitRevision, SubmitObservation, DraftPolicy, Decide,
         Issue, Consume, RecordReceipt, VerifyReceipt;
    SoundParts(db);
    var w := e.w;
    match e.call
    case CallCreateIntegration(id, actor, permitted, place, scopes, capabilities) =>
      CreateIntegrationNeverCrashes(db, id, actor, permitted, place, scopes, capabilities, w);
    case CallSubmitSystem(principal, id, displayName, resourceType, externalName, purpose, legacy) =>
      SubmitSystemNeverCrashes(db, principal, id, displayName, resourceType, externalName, purpose, legacy, w);
    case CallSubmitRevision(principal, id, system, manifest) =>
      if IsIntegration(db, principal) {
        SubmitRevisionNeverCrashes(db, principal, id, system, manifest, Machine(principal), w);
      }
    case CallSubmitRevisionByHuman(actor, permitted, principal, id, system, manifest) =>
      if IsIntegration(db, principal) {
        SubmitRevisionNeverCrashes(db, principal, id, system, manifest, Human(actor), w);
      }
    case CallSubmitObservation(principal, id, system, name, check, result, observedAt, digest, evidenceRef,
                               actionDigest, resource) =>
      SubmitObservationNeverCrashes(db, principal, id, Observation(system, name, check, result, observedAt, digest,
                                                             evidenceRef, actionDigest, resource), w);
    case CallDraftPolicy(actor, permitted, id, system, policy) =>
      DraftPolicyNeverCrashes(db, actor, permitted, id, system, policy, w);
    case CallDecide(actor, permitted, id, target, decision, expected) =>
      DecideNeverCrashes(db, actor, permitted, id, target, decision, expected, w);
    case CallIssue(principal, id, token, request) => IssueNeverCrashes(db, principal, id, token, request, w);
    case CallConsume(principal, token, request) => ConsumeNeverCrashes(db, principal, token, request, w);
    case CallRecordReceipt(principal, id, authorization, executed, evidenceRef) =>
      RecordReceiptNeverCrashes(db, principal, id, authorization, executed, evidenceRef, w);
    case CallVerifyReceipt(principal, id, receipt, observation) =>
      VerificationNeverCrashes(db, principal, id, receipt, observation, w);
    case _ =>
  }
}
