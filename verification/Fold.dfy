/** storage/fold.py and the counting half of storage/entities.py, in place.  What may go wrong in a
    pass is a parameter: which projection raises, and on which row. */
module Fold {

  import opened Common
  import opened Inventory
  import opened Ledger

  /** Where a pass over claimed rows raises: inside `process_events` (at a row, or at its commit when
      `at` is past the end), inside a later projection, or nowhere. */
  datatype Fault = NoFault | InCounting(at: nat) | InProjection(index: nat)

  /** How many projections have committed when the pass stops. */
  function Reached(fault: Fault): nat {
    match fault
    case NoFault => PROJECTIONS
    case InCounting(_) => 0
    case InProjection(index) => if 1 <= index < PROJECTIONS then index else PROJECTIONS
  }

  predicate Raises(fault: Fault) {
    Reached(fault) < PROJECTIONS
  }

  datatype PassResult = Folded(count: nat) | Raised

  /** `fold_pending` as one uninterrupted pass. */
  function RequestPass(db: Db, tenant: string, limit: nat, maxAttempts: Option<nat>, fault: Fault): (Db, PassResult) {
    var ids := Claim(db.ledger, 0, tenant, limit, maxAttempts);
    ClaimIsOldest(db.ledger, 0, tenant, limit, maxAttempts);
    if ids == [] then (db, Folded(0))
    else
      var db' := Passed(db, ids, Reached(fault));
      if Raises(fault) then (RecordAttempts(db', ids), Raised) else (MarkFolded(db', ids), Folded(|ids|))
  }

  /** One row folded alone. */
  function SweepRow(db: Db, id: nat, fault: Fault): (db': Db)
    requires id < |db.ledger|
    ensures |db'.ledger| == |db.ledger|
  {
    var passed := Passed(db, [id], Reached(fault));
    if Raises(fault) then RecordAttempts(passed, [id]) else MarkFolded(passed, [id])
  }

  /** The sweeper's row-by-row second half. */
  function SweepRows(db: Db, ids: seq<nat>, faults: nat -> Fault): (db': Db)
    requires InRange(ids, db.ledger)
    ensures |db'.ledger| == |db.ledger|
  {
    if ids == [] then db
    else
      var last := ids[|ids| - 1];
      SweepRow(SweepRows(db, ids[..|ids| - 1], faults), last, faults(last))
  }

  /** `sweep_tenant` as one uninterrupted pass. */
  function SweepPass(db: Db, tenant: string, limit: nat, setFault: Fault, rowFaults: nat -> Fault): Db {
    var ids := Claim(db.ledger, 0, tenant, limit, None);
    ClaimIsOldest(db.ledger, 0, tenant, limit, None);
    var db' := Passed(db, ids, Reached(setFault));
    if ids == [] then db
    else if Raises(setFault) then SweepRows(db', ids, rowFaults)
    else MarkFolded(db', ids)
  }

  lemma {:induction false} Touch(table: Table, e: Event, touched: set<Entity>,
                                 entity: Entity) returns (touched': set<Entity>)
    requires entity !in touched
    ensures touched' == touched + {entity}
    ensures var grown := Grown(table, e, touched);
      Grown(table, e, touched') == grown[entity := Plus(Lookup(grown, entity), Contribution(e, entity))]
  {
    touched' := touched + {entity};
    GrowOne(table, e, touched, entity);
  }

  class Database {
    var ledger: seq<Row>
    var inventory: Table
    ghost var done: set<(nat, nat)>

    constructor ()
      ensures State() == EMPTY
    {
      ledger, inventory, done := [], map[], {};
    }

    ghost function State(): Db
      reads this
    {
      Db(ledger, inventory, done)
    }

    // ----- entities.py -----

    /** The read-modify-write every inventory upsert performs: insert, or add to the stored row. */
    method Upsert(entity: Entity, delta: Aggregate)
      modifies this`inventory
      ensures inventory == old(inventory)[entity := Plus(Lookup(old(inventory), entity), delta)]
    {
      if entity in inventory {
        inventory := inventory[entity := Plus(inventory[entity], delta)];
      } else {
        PlusLaws(delta, ZERO, ZERO);
        inventory := inventory[entity := delta];
      }
    }

    method UpsertApplication(e: Event)
      requires IsRuntime(e.eventType)
      modifies this`inventory
      ensures inventory == if e.application == "" then old(inventory)
        else old(inventory)[Application(ApplicationKey(e)) :=
          Plus(Lookup(old(inventory), Application(ApplicationKey(e))), Contribution(e, Application(ApplicationKey(e))))]
    {
      if e.application == "" {
        return;
      }
      Upsert(Application(ApplicationKey(e)),
             Aggregate(if e.eventType.ModelCall? then 1 else 0, if e.isError then 1 else 0,
                       e.inputTokens, e.outputTokens, 0,
                       Label("use_cases", e.useCase) + Label("model_purposes", e.purpose)
                       + Label("providers", e.provider) + Label("models", e.model)));
    }

    method UpsertWorkflow(e: Event)
      requires IsRuntime(e.eventType) && (e.eventType.ModelCall? || e.application != "")
      modifies this`inventory
      ensures inventory == if e.workflow == "" && !e.eventType.ModelCall? then old(inventory)
        else old(inventory)[Workflow(WorkflowKey(e)) :=
          Plus(Lookup(old(inventory), Workflow(WorkflowKey(e))), Contribution(e, Workflow(WorkflowKey(e))))]
    {
      if e.workflow == "" && !e.eventType.ModelCall? {
        return;
      }
      Upsert(Workflow(WorkflowKey(e)),
             Aggregate(if e.eventType.ModelCall? then 1 else 0, if e.isError then 1 else 0,
                       e.inputTokens, e.outputTokens, 0,
                       Label("applications", e.application) + Label("providers", e.provider)
                       + Label("models", e.model)));
    }

    method UpsertModel(e: Event)
      requires e.eventType.ModelCall?
      modifies this`inventory
      ensures inventory == old(inventory)[Model(ModelKey(e)) :=
          Plus(Lookup(old(inventory), Model(ModelKey(e))), Contribution(e, Model(ModelKey(e))))]
    {
      Upsert(Model(ModelKey(e)),
             Aggregate(1, if e.isError then 1 else 0, e.inputTokens, e.outputTokens, 0,
                       Label("operations", e.operation) + Label("applications", e.application)));
    }

    method UpsertProvider(e: Event)
      requires e.eventType.ModelCall?
      modifies this`inventory
      ensures inventory == if e.provider == "" then old(inventory)
        else old(inventory)[Provider(ProviderKey(e)) :=
          Plus(Lookup(old(inventory), Provider(ProviderKey(e))), Contribution(e, Provider(ProviderKey(e))))]
    {
      if e.provider == "" {
        return;
      }
      Upsert(Provider(ProviderKey(e)),
             Aggregate(1, if e.isError then 1 else 0, 0, 0, 0,
                       Label("models", e.model) + Label("applications", e.application)));
    }

    method UpsertControl(e: Event, control: string)
      requires control == ControlName(e.eventType) != ""
      modifies this`inventory
      ensures inventory == old(inventory)[Control(ControlKey(e, control)) :=
          Plus(Lookup(old(inventory), Control(ControlKey(e, control))), Contribution(e, Control(ControlKey(e, control))))]
    {
      Upsert(Control(ControlKey(e, control)), Aggregate(0, 0, 0, 0, 1, {}));
    }

    /** One event through every branch of `process_event` that writes an accumulating row. */
    method ProcessEvent(e: Event)
      modifies this`inventory
      ensures inventory == Project(old(inventory), e)
    {
      hide Contribution, Plus, Lookup, EntityId, Grown, Project, ControlName;
      ghost var was, touched := inventory, {};
      GrownAll(was, e);
      var isModelCall := e.eventType.ModelCall?;
      if IsRuntime(e.eventType) && (isModelCall || e.application != "") {
        UpsertApplication(e);
        if e.application != "" {
          touched := Touch(was, e, touched, Application(ApplicationKey(e)));
        }
        UpsertWorkflow(e);
        if e.workflow != "" || isModelCall {
          touched := Touch(was, e, touched, Workflow(WorkflowKey(e)));
        }
      }
      if isModelCall {
        UpsertModel(e);
        touched := Touch(was, e, touched, Model(ModelKey(e)));
        UpsertProvider(e);
        if e.provider != "" {
          touched := Touch(was, e, touched, Provider(ProviderKey(e)));
        }
      }
      if ControlName(e.eventType) != "" {
        UpsertControl(e, ControlName(e.eventType));
        touched := Touch(was, e, touched, Control(ControlKey(e, ControlName(e.eventType))));
      }
      assert touched == Touched(e);
    }

    /** `process_events`: one transaction that projects the uncounted claimed rows and stamps them,
        or rolls back. */
    method ProcessEvents(pending: seq<nat>, raisesAt: Option<nat>) returns (committed: bool)
      requires InRange(pending, ledger) && Ascending(pending)
      modifies this
      ensures committed <==> raisesAt.None?
      ensures State() == if committed then Count(old(State()), pending) else old(State())
    {
      var snapshot := inventory;
      var uncounted := set id | id in pending && !ledger[id].counted;
      var i := 0;
      while i < |pending|
        invariant 0 <= i <= |pending|
        invariant ledger == old(ledger) && done == old(done)
        invariant inventory == CountInto(snapshot, ledger, pending[..i])
      {
        if raisesAt == Some(i) {
          inventory := snapshot;
          return false;
        }
        assert pending[..i + 1] == pending[..i] + [pending[i]];
        if pending[i] in uncounted {
          ProcessEvent(ledger[pending[i]].event);
        }
        i := i + 1;
      }
      assert pending[..i] == pending;
      if raisesAt.Some? {
        inventory := snapshot;
        return false;
      }
      ledger := Stamped(ledger, pending);
      return true;
    }

    // ----- raw_events.py -----

    /** `insert_events`: the rows the unique index lets in, and the events stored for the first time. */
    method InsertEvents(spans: seq<Span>) returns (inserted: seq<Event>)
      modifies this`ledger
      ensures State() == InsertAll(old(State()), spans)
      ensures inserted == FirstOfEach(Known(old(ledger)), spans)
    {
      hide Known;
      inserted := [];
      var i := 0;
      assert spans[i..] == spans;
      while i < |spans|
        invariant 0 <= i <= |spans|
        invariant InsertAll(State(), spans[i..]) == InsertAll(old(State()), spans)
        invariant inserted + FirstOfEach(Known(ledger), spans[i..]) == FirstOfEach(Known(old(ledger)), spans)
      {
        assert spans[i..][0] == spans[i] && spans[i..][1..] == spans[i + 1..];
        if Key(spans[i]) !in Known(ledger) {
          KnownGrows(ledger, spans[i]);
          inserted := inserted + [spans[i].event];
          ledger := ledger + [Row(spans[i], false, false, 0)];
        }
        i := i + 1;
      }
      assert spans[i..] == [];
    }

    method StampFolded(ids: seq<nat>)
      modifies this`ledger
      ensures State() == MarkFolded(old(State()), ids)
    {
      ledger := seq(|ledger|, i requires 0 <= i < |ledger| reads this =>
        if i in ids then ledger[i].(folded := true) else ledger[i]);
    }

    method CountAttempt(ids: seq<nat>)
      modifies this`ledger
      ensures State() == RecordAttempts(old(State()), ids)
    {
      ledger := seq(|ledger|, i requires 0 <= i < |ledger| reads this =>
        if i in ids && !ledger[i].folded then ledger[i].(attempts := ledger[i].attempts + 1) else ledger[i]);
    }

    // ----- fold.py -----

    /** `_fold_rows`: every projection in order, counting first, each committing on its own. */
    method FoldRows(pending: seq<nat>, fault: Fault) returns (completed: bool)
      requires InRange(pending, ledger) && Ascending(pending)
      modifies this
      ensures completed <==> !Raises(fault)
      ensures State() == Passed(old(State()), pending, Reached(fault))
    {
      completed := ProcessEvents(pending, if fault.InCounting? then Some(fault.at) else None);
      if !completed {
        return;
      }
      done := done + Pairs(pending, 0);
      assert State() == Advance(Passed(old(State()), pending, 0), pending, 0);
      var projection: nat := 1;
      while projection < PROJECTIONS
        invariant 1 <= projection <= PROJECTIONS
        invariant projection <= Reached(fault)
        invariant State() == Passed(old(State()), pending, projection)
      {
        if fault == InProjection(projection) {
          return false;
        }
        done := done + Pairs(pending, projection);
        projection := projection + 1;
      }
    }

    /** `fold_pending`: the request path. */
    method FoldPending(tenant: string, limit: nat, maxAttempts: Option<nat>, fault: Fault)
      returns (result: PassResult)
      modifies this
      ensures (State(), result) == RequestPass(old(State()), tenant, limit, maxAttempts, fault)
    {
      var pending := Claim(ledger, 0, tenant, limit, maxAttempts);
      ClaimIsOldest(ledger, 0, tenant, limit, maxAttempts);
      if pending == [] {
        return Folded(0);
      }
      var completed := FoldRows(pending, fault);
      if !completed {
        CountAttempt(pending);
        return Raised;
      }
      StampFolded(pending);
      return Folded(|pending|);
    }

    /** `sweep_tenant`: the whole set first, then row by row so one poison row blocks no other. */
    method SweepTenant(tenant: string, limit: nat, setFault: Fault, rowFaults: nat -> Fault)
      returns (folded: nat, failed: nat)
      modifies this
      ensures State() == SweepPass(old(State()), tenant, limit, setFault, rowFaults)
      ensures var claimed := Claim(old(ledger), 0, tenant, limit, None);
        && folded + failed == |claimed|
        && failed == if Raises(setFault) then Failing(claimed, rowFaults) else 0
    {
      hide Passed, Advance, Claim, Reached, MarkFolded, RecordAttempts;
      var pending := Claim(ledger, 0, tenant, limit, None);
      ClaimIsOldest(ledger, 0, tenant, limit, None);
      if pending == [] {
        return 0, 0;
      }
      var completed := FoldRows(pending, setFault);
      if completed {
        StampFolded(pending);
        return |pending|, 0;
      }
      ghost var middle := State();
      folded, failed := 0, 0;
      var i := 0;
      while i < |pending|
        invariant 0 <= i <= |pending|
        invariant middle == Passed(old(State()), pending, Reached(setFault)) && InRange(pending, middle.ledger)
        invariant State() == SweepRows(middle, pending[..i], rowFaults)
        invariant State().ledger == ledger && InRange(pending, ledger)
        invariant folded + failed == i && failed == Failing(pending[..i], rowFaults)
      {
        assert pending[..i + 1][..i] == pending[..i];
        var row := [pending[i]];
        var ok := FoldRows(row, rowFaults(pending[i]));
        if !ok {
          CountAttempt(row);
          failed := failed + 1;
        } else {
          StampFolded(row);
          folded := folded + 1;
        }
        i := i + 1;
      }
      assert pending[..i] == pending;
    }
  }

  /** How many of the rows cannot be folded alone. */
  function Failing(ids: seq<nat>, faults: nat -> Fault): nat {
    if ids == [] then 0
    else Failing(ids[..|ids| - 1], faults) + if Raises(faults(ids[|ids| - 1])) then 1 else 0
  }

  // ----- what a sweep marks -----

  /** Projections write neither `folded_at` nor `fold_attempts`, nor the event. */
  lemma {:induction false} PassedFrame(db: Db, ids: seq<nat>, upTo: nat)
    requires InRange(ids, db.ledger)
    ensures forall i :: 0 <= i < |db.ledger| ==>
      var row := Passed(db, ids, upTo).ledger[i];
      row.folded == db.ledger[i].folded && row.attempts == db.ledger[i].attempts
      && row.event == db.ledger[i].event && row.tenant == db.ledger[i].tenant
  {
    if upTo > 0 {
      PassedFrame(db, ids, upTo - 1);
    }
  }

  /** A request pass folds all it claimed or none of it; if it raises, every claimed row is charged
      one attempt. */
  lemma RequestMarksExactly(db: Db, tenant: string, limit: nat, maxAttempts: Option<nat>, fault: Fault)
    ensures var ids := Claim(db.ledger, 0, tenant, limit, maxAttempts);
      var (db', result) := RequestPass(db, tenant, limit, maxAttempts, fault);
      && |db'.ledger| == |db.ledger|
      && result == (if ids != [] && Raises(fault) then Raised else Folded(|ids|))
      && forall i :: 0 <= i < |db.ledger| ==>
        && db'.ledger[i].folded == (db.ledger[i].folded || (i in ids && !Raises(fault)))
        && db'.ledger[i].attempts == db.ledger[i].attempts + if i in ids && Raises(fault) then 1 else 0
  {
    hide Claim, Reached, Passed;
    var ids := Claim(db.ledger, 0, tenant, limit, maxAttempts);
    ClaimIsOldest(db.ledger, 0, tenant, limit, maxAttempts);
    PassedFrame(db, ids, Reached(fault));
  }

  lemma SweepRowMarks(db: Db, id: nat, fault: Fault, i: nat)
    requires id < |db.ledger| && i < |db.ledger|
    ensures var was, row := db.ledger[i], SweepRow(db, id, fault).ledger[i];
      && row.folded == (was.folded || (i == id && !Raises(fault)))
      && row.attempts == was.attempts + if i == id && Raises(fault) && !was.folded then 1 else 0
  {
    hide Passed, Reached;
    PassedFrame(db, [id], Reached(fault));
  }

  lemma {:induction false} SweepRowsMarks(db: Db, ids: seq<nat>, faults: nat -> Fault, i: nat)
    requires InRange(ids, db.ledger) && Ascending(ids) && i < |db.ledger| && (i in ids ==> !db.ledger[i].folded)
    ensures var row := SweepRows(db, ids, faults).ledger[i];
      && row.folded == (db.ledger[i].folded || (i in ids && !Raises(faults(i))))
      && row.attempts == db.ledger[i].attempts + if i in ids && Raises(faults(i)) then 1 else 0
  {
    hide SweepRow, Raises;
    if ids != [] {
      var n := |ids| - 1;
      SweepRowsMarks(db, ids[..n], faults, i);
      SweepRowMarks(SweepRows(db, ids[..n], faults), ids[n], faults(ids[n]), i);
      assert ids == ids[..n] + [ids[n]];
    }
  }

  /** A sweep marks folded exactly the claimed rows whose eleven projections completed, and counts an
      attempt against exactly the ones that failed alone: no row waits behind a poison row. */
  lemma SweepMarksExactly(db: Db, tenant: string, limit: nat, setFault: Fault, rowFaults: nat -> Fault)
    ensures var ids := Claim(db.ledger, 0, tenant, limit, None);
      var db' := SweepPass(db, tenant, limit, setFault, rowFaults);
      && |db'.ledger| == |db.ledger|
      && forall i :: 0 <= i < |db.ledger| ==>
        && (db'.ledger[i].folded <==>
            db.ledger[i].folded || (i in ids && (!Raises(setFault) || !Raises(rowFaults(i)))))
        && db'.ledger[i].attempts ==
            db.ledger[i].attempts + if i in ids && Raises(setFault) && Raises(rowFaults(i)) then 1 else 0
  {
    var ids := Claim(db.ledger, 0, tenant, limit, None);
    ClaimIsOldest(db.ledger, 0, tenant, limit, None);
    PassedFrame(db, ids, Reached(setFault));
    forall i | 0 <= i < |db.ledger| {
      SweepRowsMarks(Passed(db, ids, Reached(setFault)), ids, rowFaults, i);
    }
  }
}
