/** The protocol's conditions can be met: calls from the empty store lead to one in which a permit is
    waiting, its consumption goes through, and its receipt ends up verified.  And a tightening that is none:
    trusting fewer sources. */
module PortableWitness {

  import opened Common
  import opened PortableRecords
  import opened PortableEvaluate
  import opened PortableSteps
  import opened PortableProtocol
  import opened PortableRuns

  const HERE := Place("p", "e")
  const FIX := Action("fix", "db", map[])
  const ASK := Request(3, Remediation, Some(FIX))
  const MANIFEST := Manifest("r1", "sha", {}, {}, {"db"}, {}, 0, false, false, false, false)
  const POLICY := Policy({}, {}, {"db"}, {}, {"fix"}, map[], 0, false, true, false, ["c"], [8], 60, 60)
  const SCOPES: set<AccessScope> :=
    {SystemsRead, SystemsWrite, RevisionsWrite, AuthorizationsRequest, ReceiptsWrite}
  const CAPABILITIES := [Capability("fix", map[], "c")]
  const EXECUTOR := Integration(SCOPES, CAPABILITIES)
  const WATCHER := Integration({SystemsRead, ObservationsWrite}, [])
  const SYSTEM := System("s", "t", "x", "why", None)
  const GRANT := Authorization(2, 3, OfManifest(MANIFEST), Some(5), Allow, ASK)

  function Executor(): Record {
    Record(HERE, NOBODY, Fresh(1), Active, EXECUTOR, Human("a"), 0, 0, true, None)
  }

  /** An evidence source other than the executor. */
  function Watcher8(): Record {
    Record(HERE, NOBODY, Fresh(8), Active, WATCHER, Human("a"), 0, 0, true, None)
  }

  function System2(): Record {
    Record(HERE, 1, SystemKey("t", "x"), Approved, SYSTEM, Machine(1), 0, 0, true, Some(4))
  }

  function Revision3(): Record {
    Record(HERE, 1, RevisionKey(2, "r1"), PendingReview, Revision(2, MANIFEST), Machine(1), 0, 0, true, None)
  }

  function Approval4(): Record {
    Record(HERE, NOBODY, Fresh(4), Recorded, Decision(2, 2, ApproveSystem, SYSTEM), Human("b"), 0, 0, false, None)
  }

  function Policy5(): Record {
    Record(HERE, NOBODY, Fresh(5), Active, RuntimePolicy(2, POLICY), Human("a"), 0, 0, true, Some(6))
  }

  function Activation6(): Record {
    Record(HERE, NOBODY, Fresh(6), Recorded, Decision(2, 5, ActivatePolicy, RuntimePolicy(2, POLICY)), Human("b"), 0, 0,
           false, None)
  }

  function Grant7(): Record {
    Record(HERE, 1, Fresh(7), Evaluated(Allow), GRANT, Machine(1), 0, 0, true, None)
  }

  const THEN := World(0, true, 0, 0, 0, 0)
  const NOW := World(1, true, 0, 0, 0, 0)

  lemma FixIsACapability()
    ensures CapabilityOf(EXECUTOR.capabilities, "fix") == Some(Capability("fix", map[], "c"))
  {
  }

  /** What the request needs of a store. */
  ghost predicate Governs(db: Db) {
    && 1 in db.records && 2 in db.records && 3 in db.records && 5 in db.records
    && db.records[1] == Executor() && db.records[2] == System2() && db.records[3] == Revision3()
    && db.records[5] == Policy5() && ActivePolicies(db, 2) == {5}
  }

  lemma InForceIsFive(db: Db)
    requires Governs(db)
    ensures ActivePolicy(db, 2) == Some(5)
  {
  }

  lemma AskIsEligible(db: Db, w: World)
    requires Governs(db)
    ensures IsIntegration(db, 1) && Eligible(db, 1, ASK, 5, w)
  {
    hide ActivePolicy, CapabilityOf, ActivePolicies;
    InForceIsFive(db);
    FixIsACapability();
  }

  lemma NamesThePolicy(db: Db, w: World)
    requires Governs(db)
    ensures IsIntegration(db, 1)
    ensures Evaluate(db, 1, ASK, w).Done? ==> Evaluate(db, 1, ASK, w).value.policyId == Some(5)
  {
    hide ActivePolicy, CapabilityOf, Gather, ActionBlockers, ManifestBlockers, NeedsReview, LegacyBlockers,
      ActivePolicies;
    InForceIsFive(db);
  }

  lemma AskIsAllowed(db: Db, w: World)
    requires Governs(db)
    ensures IsIntegration(db, 1)
    ensures Allows(Evaluate(db, 1, ASK, w)) && Evaluate(db, 1, ASK, w).value.policyId == Some(5)
  {
    hide Evaluate, Eligible, Governs;
    AskIsEligible(db, w);
    NamesThePolicy(db, w);
    AllowsExactlyEligible(db, 1, ASK, w);
  }

  // ----- the store is reached by calls -----

  /** The events are fair from `a` and lead to `b`. */
  ghost predicate Leads(a: Db, events: seq<Event>, b: Db) {
    Fair(a, events) && Run(a, events) == b
  }

  lemma {:induction false} LeadsOn(a: Db, first: seq<Event>, b: Db, second: seq<Event>, c: Db)
    requires Leads(a, first, b) && Leads(b, second, c)
    ensures Leads(a, first + second, c)
    decreases |first|
  {
    hide Next, NamesAreNew;
    if first == [] {
      assert first + second == second;
    } else {
      assert (first + second)[1..] == first[1..] + second;
      LeadsOn(Next(a, first[0]), first[1..], b, second, c);
    }
  }

  lemma LeadsOnce(a: Db, e: Event)
    requires NamesAreNew(a, e.call)
    ensures Leads(a, [e], Next(a, e))
  {
    hide Next, NamesAreNew;
    assert [e][1..] == [];
    assert Run(Next(a, e), []) == Next(a, e) && Fair(Next(a, e), []);
  }

  function Anchoring(id: Id, seen: Record): seq<Event> {
    [Event(CallAppend(id, seen), THEN), Event(CallAnchor(id, seen), THEN)]
  }

  function Anchored(db: Db, id: Id): Db
    requires id in db.records
  {
    Db(db.records[id := db.records[id].(audited := true)], db.permits, db.trail + {EntryOf(id, db.records[id])})
  }

  lemma AnchoringLeads(db: Db, id: Id)
    requires id in db.records
    ensures Leads(db, Anchoring(id, db.records[id]), Anchored(db, id))
  {
    hide Leads;
    var seen := db.records[id];
    var append, anchor := Event(CallAppend(id, seen), THEN), Event(CallAnchor(id, seen), THEN);
    var middle := db.(trail := db.trail + {EntryOf(id, seen)});
    assert Next(db, append) == middle;
    assert Next(middle, anchor) == Anchored(db, id);
    LeadsOnce(db, append);
    LeadsOnce(middle, anchor);
    LeadsOn(db, [append], middle, [anchor], Anchored(db, id));
    assert [append] + [anchor] == Anchoring(id, seen);
  }

  /** A call that goes through, and the audit entry for the record it leaves. */
  function Step(call: Call, w: World, id: Id, seen: Record): seq<Event> {
    [Event(call, w)] + Anchoring(id, seen)
  }

  lemma StepLeads(a: Db, call: Call, w: World, b: Db, id: Id)
    requires NamesAreNew(a, call) && Apply(a, call, w) == Done(b) && id in b.records
    ensures Leads(a, Step(call, w, id, b.records[id]), Anchored(b, id))
  {
    hide Apply, NamesAreNew;
    LeadsOnce(a, Event(call, w));
    AnchoringLeads(b, id);
    LeadsOn(a, [Event(call, w)], b, Anchoring(id, b.records[id]), Anchored(b, id));
  }

  const REGISTER := CallCreateIntegration(1, "a", true, HERE, SCOPES, CAPABILITIES)
  const WATCH := CallCreateIntegration(8, "a", true, HERE, {SystemsRead, ObservationsWrite}, [])
  const SUBMIT := CallSubmitSystem(1, 2, "s", "t", "x", "why", None)
  const REVISE := CallSubmitRevision(1, 3, 2, MANIFEST)
  const APPROVE := CallDecide("b", true, 4, 2, ApproveSystem, SYSTEM)
  const DRAFT := CallDraftPolicy("a", true, 5, 2, POLICY)
  const ACTIVATE := CallDecide("b", true, 6, 5, ActivatePolicy, RuntimePolicy(2, POLICY))
  const ISSUE := CallIssue(1, 7, "t", ASK)

  function Planned2(): Record {
    NewRecord(HERE, 1, SystemKey("t", "x"), Planned, SYSTEM, Machine(1), 0)
  }

  function Draft5(): Record {
    NewRecord(HERE, NOBODY, Fresh(5), Draft, RuntimePolicy(2, POLICY), Human("a"), 0)
  }

  function Unaudited(r: Record): Record {
    r.(audited := false)
  }

  // The stores on the way, each the one before after a call and, where it matters, its anchoring.

  function Zeroth(): Db {
    Anchored(Insert(EMPTY, 1, Unaudited(Executor())), 1)
  }

  function First(): Db {
    Anchored(Insert(Zeroth(), 8, Unaudited(Watcher8())), 8)
  }

  function Second(): Db {
    Insert(First(), 2, Planned2())
  }

  function Third(): Db {
    Anchored(Insert(Second(), 3, Unaudited(Revision3())), 3)
  }

  function Fourth(): (db: Db)
    ensures db.permits == map[] && db.records.Keys == {1, 2, 3, 4, 8}
  {
    LookThird();
    Anchored(SetState(Insert(Third(), 4, Approval4()), 2, Approved, Some(4), 0), 2)
  }

  function Fifth(): Db {
    Insert(Fourth(), 5, Draft5())
  }

  function Sixth(): Db {
    Anchored(SetState(Insert(Fifth(), 6, Activation6()), 5, Active, Some(6), 0), 5)
  }

  /** A system, its revision and its policy in force, and a grant whose permit has not been used. */
  function Store(): Db {
    Anchored(Granting(), 7)
  }

  lemma LookZeroth()
    ensures Zeroth().records.Keys == {1} && Zeroth().permits == map[] && Zeroth().records[1] == Executor()
  {
  }

  lemma LookFirst()
    ensures First().records.Keys == {1, 8} && First().permits == map[] && First().records[1] == Executor()
    ensures First().records[8] == Watcher8()
  {
    hide Zeroth;
    LookZeroth();
  }

  lemma LookSecond()
    ensures Second().records.Keys == {1, 2, 8} && Second().permits == map[] && Second().records[1] == Executor()
    ensures Second().records[2] == Planned2() && Second().records[8] == Watcher8()
  {
    hide First;
    LookFirst();
  }

  lemma LookThird()
    ensures Third().records.Keys == {1, 2, 3, 8} && Third().permits == map[] && Third().records[1] == Executor()
    ensures Third().records[2] == Planned2() && Third().records[3] == Revision3() && Third().records[8] == Watcher8()
  {
    hide Second;
    LookSecond();
  }

  lemma LookFourth()
    ensures Fourth().records.Keys == {1, 2, 3, 4, 8} && Fourth().records[1] == Executor()
    ensures Fourth().records[8] == Watcher8()
    ensures Fourth().records[2] == System2() && Fourth().records[3] == Revision3() && Fourth().records[4] == Approval4()
  {
    hide Third;
    LookThird();
  }

  lemma LookFifth()
    ensures Fifth().records.Keys == {1, 2, 3, 4, 5, 8} && Fifth().permits == map[] && Fifth().records[1] == Executor()
    ensures Fifth().records[2] == System2() && Fifth().records[3] == Revision3() && Fifth().records[4] == Approval4()
    ensures Fifth().records[5] == Draft5() && Fifth().records[8] == Watcher8()
  {
    hide Fourth;
    LookFourth();
  }

  lemma LookSixth()
    ensures Sixth().records.Keys == {1, 2, 3, 4, 5, 6, 8} && Sixth().permits == map[] && Sixth().records[1] == Executor()
    ensures Sixth().records[2] == System2() && Sixth().records[3] == Revision3() && Sixth().records[4] == Approval4()
    ensures Sixth().records[5] == Policy5() && Sixth().records[6] == Activation6() && Sixth().records[8] == Watcher8()
  {
    hide Fifth;
    LookFifth();
  }

  lemma LookStore()
    ensures Governs(Store()) && 7 in Store().records && Store().records[7] == Grant7()
    ensures Store().permits == map["t" := Permit(7, 60, None)]
  {
    hide Sixth;
    LookSixth();
    assert ActivePolicies(Store(), 2) == {5};
  }

  lemma Inserts(db: Db, id: Id, r: Record)
    requires forall i <- db.records :: db.records[i].key != r.key
    ensures TryInsert(db, id, r) == Done(Insert(db, id, r))
  {
  }

  lemma SupersedeNone(db: Db, now: Time)
    ensures Supersede(db, {}, now) == db
  {
  }

  lemma Registered()
    ensures Leads(EMPTY, Step(REGISTER, THEN, 1, Unaudited(Executor())), Zeroth())
  {
    hide Leads, Step, TryInsert;
    Inserts(EMPTY, 1, Unaudited(Executor()));
    StepLeads(EMPTY, REGISTER, THEN, Insert(EMPTY, 1, Unaudited(Executor())), 1);
  }

  lemma WatcherRegistered()
    ensures Leads(Zeroth(), Step(WATCH, THEN, 8, Unaudited(Watcher8())), First())
  {
    hide Leads, Step, Zeroth, TryInsert;
    LookZeroth();
    Inserts(Zeroth(), 8, Unaudited(Watcher8()));
    StepLeads(Zeroth(), WATCH, THEN, Insert(Zeroth(), 8, Unaudited(Watcher8())), 8);
  }

  lemma Submitted()
    ensures Leads(First(), [Event(SUBMIT, THEN)], Second())
  {
    hide Leads, First, TryInsert;
    LookFirst();
    Inserts(First(), 2, Planned2());
    assert FiledSystem(First(), 1, SystemKey("t", "x"), HERE) == None;
    LeadsOnce(First(), Event(SUBMIT, THEN));
  }

  lemma Revised()
    ensures Leads(Second(), Step(REVISE, THEN, 3, Unaudited(Revision3())), Third())
  {
    hide Leads, Step, Second, TryInsert;
    LookSecond();
    Inserts(Second(), 3, Unaudited(Revision3()));
    assert Filed(Second(), 1, RevisionKey(2, "r1")) == None;
    StepLeads(Second(), REVISE, THEN, Insert(Second(), 3, Unaudited(Revision3())), 3);
  }

  lemma SystemApproved()
    ensures Leads(Third(), Step(APPROVE, THEN, 2, Unaudited(System2())), Fourth())
  {
    hide Leads, Step, Third, TryInsert, Supersede, Evaluate;
    LookThird();
    SupersedeNone(Third(), 0);
    Inserts(Third(), 4, Approval4());
    var b := SetState(Insert(Third(), 4, Approval4()), 2, Approved, Some(4), 0);
    assert b.records[2] == Unaudited(System2());
    StepLeads(Third(), APPROVE, THEN, b, 2);
  }

  lemma Drafted()
    ensures Leads(Fourth(), [Event(DRAFT, THEN)], Fifth())
  {
    hide Leads, Fourth, TryInsert;
    LookFourth();
    SourceIsTrusted(Fourth(), 2);
    Inserts(Fourth(), 5, Draft5());
    LeadsOnce(Fourth(), Event(DRAFT, THEN));
  }

  lemma SourceIsTrusted(db: Db, target: Id)
    requires 8 in db.records && db.records[8] == Watcher8() && target in db.records && db.records[target].place == HERE
    ensures UntrustedSource(db, [8], target) == None
  {
    assert [8][1..] == [];
  }

  function Activating(): Db {
    LookFifth();
    SetState(Insert(Fifth(), 6, Activation6()), 5, Active, Some(6), 0)
  }

  lemma ActivationIsFaultless()
    ensures DecisionFault(Fifth(), "b", true, 5, ActivatePolicy, RuntimePolicy(2, POLICY), THEN) == None
    ensures 5 in Fifth().records && Priors(Fifth(), 5) == {}
  {
    hide Fifth, Evaluate, UntrustedSource;
    LookFifth();
    SourceIsTrusted(Fifth(), 5);
    assert ActivePolicies(Fifth(), 2) == {};
  }

  lemma DecideYields()
    ensures Decide(Fifth(), "b", true, 6, 5, ActivatePolicy, RuntimePolicy(2, POLICY), THEN) == Done(Activating())
  {
    hide Fifth, TryInsert, Supersede, DecisionFault, Priors;
    LookFifth();
    ActivationIsFaultless();
    SupersedeNone(Fifth(), 0);
    Inserts(Fifth(), 6, Activation6());
  }

  lemma PolicyActivated()
    ensures Leads(Fifth(), Step(ACTIVATE, THEN, 5, Unaudited(Policy5())), Sixth())
  {
    hide Leads, Step, Fifth, Decide;
    LookFifth();
    DecideYields();
    assert Activating().records[5] == Unaudited(Policy5());
    StepLeads(Fifth(), ACTIVATE, THEN, Activating(), 5);
  }

  function Granting(): Db {
    var granted := Insert(Sixth(), 7, Unaudited(Grant7()));
    granted.(permits := granted.permits["t" := Permit(7, 60, None)])
  }

  lemma SixthGoverns()
    ensures Governs(Sixth())
  {
    hide Sixth;
    LookSixth();
    assert ActivePolicies(Sixth(), 2) == {5};
  }

  lemma IssueYields()
    ensures Issue(Sixth(), 1, 7, "t", ASK, THEN) == Done(Granting())
  {
    hide Evaluate, Sixth, TryInsert, Governs;
    LookSixth();
    SixthGoverns();
    AskIsAllowed(Sixth(), THEN);
    Inserts(Sixth(), 7, Unaudited(Grant7()));
  }

  lemma PermitIssued()
    ensures Leads(Sixth(), Step(ISSUE, THEN, 7, Unaudited(Grant7())), Store())
  {
    hide Leads, Step, Sixth, Issue;
    LookSixth();
    IssueYields();
    StepLeads(Sixth(), ISSUE, THEN, Granting(), 7);
  }

  /** Registration, submission, approval, activation and issue, each anchored where it must be. */
  function Script(): seq<Event> {
    Step(REGISTER, THEN, 1, Unaudited(Executor())) + Step(WATCH, THEN, 8, Unaudited(Watcher8())) + [Event(SUBMIT, THEN)]
    + Step(REVISE, THEN, 3, Unaudited(Revision3()))
    + Step(APPROVE, THEN, 2, Unaudited(System2())) + [Event(DRAFT, THEN)] + Step(ACTIVATE, THEN, 5, Unaudited(Policy5()))
    + Step(ISSUE, THEN, 7, Unaudited(Grant7()))
  }

  lemma {:induction false} ScriptLeadsToTheStore()
    ensures Leads(EMPTY, Script(), Store())
  {
    hide Leads, Step, Zeroth, First, Second, Third, Fourth, Fifth, Sixth, Store;
    Registered();
    WatcherRegistered();
    Submitted();
    Revised();
    SystemApproved();
    Drafted();
    PolicyActivated();
    PermitIssued();
    var s0 := Step(REGISTER, THEN, 1, Unaudited(Executor()));
    var s1 := s0 + Step(WATCH, THEN, 8, Unaudited(Watcher8()));
    var s2 := s1 + [Event(SUBMIT, THEN)];
    var s3 := s2 + Step(REVISE, THEN, 3, Unaudited(Revision3()));
    var s4 := s3 + Step(APPROVE, THEN, 2, Unaudited(System2()));
    var s5 := s4 + [Event(DRAFT, THEN)];
    var s6 := s5 + Step(ACTIVATE, THEN, 5, Unaudited(Policy5()));
    LeadsOn(EMPTY, s0, Zeroth(), Step(WATCH, THEN, 8, Unaudited(Watcher8())), First());
    LeadsOn(EMPTY, s1, First(), [Event(SUBMIT, THEN)], Second());
    LeadsOn(EMPTY, s2, Second(), Step(REVISE, THEN, 3, Unaudited(Revision3())), Third());
    LeadsOn(EMPTY, s3, Third(), Step(APPROVE, THEN, 2, Unaudited(System2())), Fourth());
    LeadsOn(EMPTY, s4, Fourth(), [Event(DRAFT, THEN)], Fifth());
    LeadsOn(EMPTY, s5, Fifth(), Step(ACTIVATE, THEN, 5, Unaudited(Policy5())), Sixth());
    LeadsOn(EMPTY, s6, Sixth(), Step(ISSUE, THEN, 7, Unaudited(Grant7())), Store());
  }

  /** From the empty store, fair calls lead to a sound store with a permit, and consuming it goes through:
      permits are consumed at most once, and can be. */
  lemma ConsumptionHappens()
    ensures Fair(EMPTY, Script()) && Run(EMPTY, Script()) == Store() && Sound(Store())
    ensures Consume(Store(), 1, "t", ASK, NOW).Done?
  {
    hide Store, Sound, Evaluate, Script;
    ScriptLeadsToTheStore();
    EveryReachableStoreIsSound(Script());
    LookStore();
    AskIsAllowed(Store(), NOW);
  }

  // ----- from the consumption to a verified receipt -----

  const CONSUME := CallConsume(1, "t", ASK)
  const REPORT := CallRecordReceipt(1, 9, 7, true, "done")
  const OBSERVE :=
    CallSubmitObservation(8, 10, 2, "o", "c", Passing, 1, OfManifest(MANIFEST), "", Some(OfRequest(ASK)), Some("db"))
  const VERIFY := CallVerifyReceipt(8, 11, 9, 10)

  function Consumed7(): Record {
    Grant7().(state := Consumed, updatedAt := 1)
  }

  function Receipt9(): Record {
    Record(HERE, 1, ReceiptKey(7), VerificationPending, Receipt(2, 7, true, "done", 1, 3, Some(5), Remediation),
           Machine(1), 1, 1, true, None)
  }

  function Observation10(): Record {
    Record(HERE, 8, ObservationKey(2, "o"), Recorded,
           Observation(2, "o", "c", Passing, 1, OfManifest(MANIFEST), "", Some(OfRequest(ASK)), Some("db")),
           Machine(8), 1, 1, true, None)
  }

  function Verification11(): Record {
    NewRecord(HERE, 8, VerificationKey(9), Recorded, Verification(2, 9, 10), Machine(8), 1)
  }

  function Using(): Db {
    LookStore();
    SetState(Store().(permits := Store().permits["t" := Permit(7, 60, Some(1))]), 7, Consumed, None, 1)
  }

  function Used(): Db {
    LookStore();
    Anchored(Using(), 7)
  }

  function Reported(): Db {
    Anchored(Insert(Used(), 9, Unaudited(Receipt9())), 9)
  }

  function Observed(): Db {
    Anchored(Insert(Reported(), 10, Unaudited(Observation10())), 10)
  }

  function Settled(): Db {
    LookObserved();
    SetState(Insert(Observed(), 11, Verification11()), 9, Verified, None, 1)
  }

  /** What the calls after the consumption look at. */
  predicate Standing(db: Db) {
    && {1, 2, 3, 5, 7, 8} <= db.records.Keys
    && db.records[1] == Executor() && db.records[2] == System2() && db.records[3] == Revision3()
    && db.records[5] == Policy5() && db.records[7] == Consumed7() && db.records[8] == Watcher8()
  }

  lemma LookUsed()
    ensures Standing(Used()) && Used().records.Keys == {1, 2, 3, 4, 5, 6, 7, 8}
    ensures forall i <- Used().records :: Used().records[i].key != ReceiptKey(7)
    ensures forall i <- Used().records :: Used().records[i].key != ObservationKey(2, "o")
    ensures forall i <- Used().records :: Used().records[i].key != VerificationKey(9)
  {
    hide Sixth;
    LookSixth();
    LookStore();
  }

  lemma LookReported()
    ensures Standing(Reported()) && Reported().records.Keys == {1, 2, 3, 4, 5, 6, 7, 8, 9}
    ensures Reported().records[9] == Receipt9()
    ensures forall i <- Reported().records :: Reported().records[i].key != ObservationKey(2, "o")
    ensures forall i <- Reported().records :: Reported().records[i].key != VerificationKey(9)
  {
    hide Used;
    LookUsed();
  }

  lemma LookObserved()
    ensures Standing(Observed()) && Observed().records.Keys == {1, 2, 3, 4, 5, 6, 7, 8, 9, 10}
    ensures Observed().records[9] == Receipt9() && Observed().records[10] == Observation10()
    ensures forall i <- Observed().records :: Observed().records[i].key != VerificationKey(9)
  {
    hide Reported;
    LookReported();
  }

  lemma PermitConsumed()
    ensures Leads(Store(), Step(CONSUME, NOW, 7, Unaudited(Consumed7())), Used())
  {
    hide Leads, Step, Store, Evaluate;
    LookStore();
    AskIsAllowed(Store(), NOW);
    StepLeads(Store(), CONSUME, NOW, Using(), 7);
  }

  lemma ExecutionReported()
    ensures Leads(Used(), Step(REPORT, NOW, 9, Unaudited(Receipt9())), Reported())
  {
    hide Leads, Step, Used, TryInsert;
    LookUsed();
    Inserts(Used(), 9, Unaudited(Receipt9()));
    StepLeads(Used(), REPORT, NOW, Insert(Used(), 9, Unaudited(Receipt9())), 9);
  }

  lemma OutcomeObserved()
    ensures Leads(Reported(), Step(OBSERVE, NOW, 10, Unaudited(Observation10())), Observed())
  {
    hide Leads, Step, Reported, TryInsert;
    LookReported();
    Inserts(Reported(), 10, Unaudited(Observation10()));
    assert Filed(Reported(), 8, ObservationKey(2, "o")) == None;
    StepLeads(Reported(), OBSERVE, NOW, Insert(Reported(), 10, Unaudited(Observation10())), 10);
  }

  lemma NothingSpeaksAgainst()
    ensures VerificationFault(Observed(), 8, 9, 10, NOW) == None
  {
    hide Observed;
    LookObserved();
  }

  lemma ReceiptVerified()
    ensures Leads(Observed(), [Event(VERIFY, NOW)], Settled())
  {
    hide Leads, Observed, TryInsert, VerificationFault;
    LookObserved();
    NothingSpeaksAgainst();
    Inserts(Observed(), 11, Verification11());
    LeadsOnce(Observed(), Event(VERIFY, NOW));
  }

  function LongScript(): seq<Event> {
    Script() + Step(CONSUME, NOW, 7, Unaudited(Consumed7())) + Step(REPORT, NOW, 9, Unaudited(Receipt9()))
    + Step(OBSERVE, NOW, 10, Unaudited(Observation10())) + [Event(VERIFY, NOW)]
  }

  /** ... and on: the executor consumes the permit and reports the remediation executed, a trusted source
      that is not the executor observes the outcome, and its verification leaves the receipt verified. */
  lemma {:induction false} VerificationHappens()
    ensures Fair(EMPTY, LongScript()) && Run(EMPTY, LongScript()) == Settled() && Sound(Settled())
    ensures 9 in Settled().records && Settled().records[9].body.Receipt? && Settled().records[9].body.executed
    ensures Settled().records[9].state == Verified
  {
    LookObserved();
    assert Settled().records[9].state == Verified && Settled().records[9].body == Receipt9().body;
    LongScriptLeads();
    hide Settled, Sound, LongScript;
    EveryReachableStoreIsSound(LongScript());
  }

  lemma {:induction false} LongScriptLeads()
    ensures Leads(EMPTY, LongScript(), Settled())
  {
    hide Leads, Step, Script, Store, Used, Reported, Observed, Settled;
    ScriptLeadsToTheStore();
    PermitConsumed();
    ExecutionReported();
    OutcomeObserved();
    ReceiptVerified();
    var s8 := Script() + Step(CONSUME, NOW, 7, Unaudited(Consumed7()));
    var s9 := s8 + Step(REPORT, NOW, 9, Unaudited(Receipt9()));
    var s10 := s9 + Step(OBSERVE, NOW, 10, Unaudited(Observation10()));
    LeadsOn(EMPTY, Script(), Store(), Step(CONSUME, NOW, 7, Unaudited(Consumed7())), Used());
    LeadsOn(EMPTY, s8, Used(), Step(REPORT, NOW, 9, Unaudited(Receipt9())), Reported());
    LeadsOn(EMPTY, s9, Reported(), Step(OBSERVE, NOW, 10, Unaudited(Observation10())), Observed());
    LeadsOn(EMPTY, s10, Observed(), [Event(VERIFY, NOW)], Settled());
  }

  // ----- trusting fewer sources -----

  const TWO_SOURCES := Policy({}, {}, {"db"}, {}, {}, map[], 0, false, false, true, ["c"], [4, 5], 60, 60)

  function Source(id: Id): Record {
    Record(HERE, NOBODY, Fresh(id), Active, EXECUTOR, Human("a"), 0, 0, true, None)
  }

  function Says(source: Id, result: EvidenceResult): Record {
    Record(HERE, source, ObservationKey(2, "o"), Recorded,
           Observation(2, "o", "c", result, 0, OfManifest(MANIFEST), "", None, None), Machine(source), 0, 0, true, None)
  }

  /** Two trusted sources speak of the required check at the same instant: one passes it, the other
      fails it. */
  function TwoVoices(): Db {
    Db(map[1 := Executor(), 2 := System2(), 3 := Revision3(), 4 := Source(4), 5 := Source(5),
           6 := Policy5().(body := RuntimePolicy(2, TWO_SOURCES)), 7 := Says(4, Passing), 8 := Says(5, Failed)],
       map[], {})
  }

  const RELEASE := Request(3, Release, None)

  function OneVoice(): Db {
    WithPolicy(TwoVoices(), 6, TWO_SOURCES.(trustedSources := [4]))
  }

  lemma Voices()
    ensures var p, q := TwoVoices(), OneVoice();
      && p.records.Keys == q.records.Keys == {1, 2, 3, 4, 5, 6, 7, 8}
      && (forall id | id in {1, 2, 3, 4, 5, 7, 8} :: p.records[id] == q.records[id])
      && p.records[1] == Executor() && p.records[2] == System2() && p.records[3] == Revision3()
      && p.records[4] == Source(4) && p.records[5] == Source(5)
      && p.records[7] == Says(4, Passing) && p.records[8] == Says(5, Failed)
      && p.records[6] == Policy5().(body := RuntimePolicy(2, TWO_SOURCES))
      && q.records[6] == Policy5().(body := RuntimePolicy(2, TWO_SOURCES.(trustedSources := [4])))
  {
  }

  lemma OneVoiceEstablishes()
    ensures Established(OneVoice(), 2, OfManifest(MANIFEST), "c", [4], 60, 1)
  {
    hide OneVoice, TwoVoices;
    Voices();
    assert Candidates(OneVoice(), 2, OfManifest(MANIFEST), "c", [4]) == {7};
  }

  lemma BothVoicesDoNot()
    ensures !Established(TwoVoices(), 2, OfManifest(MANIFEST), "c", [4, 5], 60, 1)
  {
    hide OneVoice, TwoVoices;
    Voices();
    assert 8 in Candidates(TwoVoices(), 2, OfManifest(MANIFEST), "c", [4, 5]);
  }

  lemma VoicesUnderOnePolicy()
    ensures ActivePolicy(OneVoice(), 2) == ActivePolicy(TwoVoices(), 2) == Some(6)
  {
    hide OneVoice, TwoVoices;
    Voices();
    assert ActivePolicies(OneVoice(), 2) == {6} && ActivePolicies(TwoVoices(), 2) == {6};
  }

  lemma OneVoiceIsEligible()
    ensures IsIntegration(OneVoice(), 1) && Eligible(OneVoice(), 1, RELEASE, 6, NOW)
  {
    hide OneVoice, TwoVoices, Established, ActivePolicy;
    Voices();
    VoicesUnderOnePolicy();
    OneVoiceEstablishes();
    assert TWO_SOURCES.requiredChecks == ["c"];
  }

  /** Trusting fewer sources is not stricter: it can drop the very source that reports a failure, and
      turn a refusal into an allow. */
  lemma FewerSourcesCanAllow()
    ensures IsIntegration(TwoVoices(), 1) && IsIntegration(OneVoice(), 1)
    ensures TwoVoices().records[6].body.policy == TWO_SOURCES
    ensures !Allows(Evaluate(TwoVoices(), 1, RELEASE, NOW)) && Allows(Evaluate(OneVoice(), 1, RELEASE, NOW))
  {
    hide OneVoice, TwoVoices, Established, Evaluate, ActivePolicy;
    Voices();
    VoicesUnderOnePolicy();
    OneVoiceEstablishes();
    BothVoicesDoNot();
    AllowsExactlyEligible(TwoVoices(), 1, RELEASE, NOW);
    AllowsExactlyEligible(OneVoice(), 1, RELEASE, NOW);
    OneVoiceIsEligible();
    assert "c" in TWO_SOURCES.requiredChecks;
  }
}
