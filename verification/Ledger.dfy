/** The durable fold ledger (storage/raw_events.py) and the transactions a fold is made of, as
    functions on a database value.  `Fold.Database` realises them in place. */
module Ledger {

  import opened Common
  import opened Inventory

  /** An event as the SDK delivers it; `id` stands for its trace and span ids. */
  datatype Span = Span(tenant: string, id: string, event: Event)

  /** One row of sdk_events; its id is its position, since ids are assigned in insertion order. */
  datatype Row = Row(span: Span, folded: bool, counted: bool, attempts: nat) {
    const tenant := span.tenant
    const event := span.event
  }

  /** What the unique index on sdk_events compares. */
  function Key(span: Span): (string, string) {
    (span.tenant, span.id)
  }

  /** `done` records which projection has completed on which row; it is history, not a column. */
  datatype Db = Db(ledger: seq<Row>, inventory: Table, done: set<(nat, nat)>)

  const EMPTY := Db([], map[], {})

  /** `_fold_rows` runs eleven projections; number 0 is `process_events`. */
  const PROJECTIONS: nat := 11

  // ----- claiming -----

  predicate Claimable(row: Row, tenant: string, maxAttempts: Option<nat>) {
    !row.folded && row.tenant == tenant && (maxAttempts.Some? ==> row.attempts < maxAttempts.value)
  }

  /** `claim_unfolded`: the oldest claimable rows from position `from` on, at most `limit`. */
  function Claim(ledger: seq<Row>, from: nat, tenant: string, limit: nat, maxAttempts: Option<nat>): seq<nat>
    requires from <= |ledger|
    decreases |ledger| - from
  {
    if from == |ledger| || limit == 0 then []
    else if Claimable(ledger[from], tenant, maxAttempts) then
      [from] + Claim(ledger, from + 1, tenant, limit - 1, maxAttempts)
    else Claim(ledger, from + 1, tenant, limit, maxAttempts)
  }

  predicate Ascending(ids: seq<nat>) {
    forall i, j :: 0 <= i < j < |ids| ==> ids[i] < ids[j]
  }

  predicate InRange(ids: seq<nat>, ledger: seq<Row>) {
    forall i :: 0 <= i < |ids| ==> ids[i] < |ledger|
  }

  /** The claim is in insertion order, holds only claimable rows, and leaves one behind only when
      the limit is used up by older ones. */
  lemma {:induction false} ClaimIsOldest(ledger: seq<Row>, from: nat, tenant: string, limit: nat,
                                         maxAttempts: Option<nat>)
    requires from <= |ledger|
    ensures var ids := Claim(ledger, from, tenant, limit, maxAttempts);
      && |ids| <= limit && Ascending(ids) && InRange(ids, ledger)
      && (forall id <- ids ::
            && from <= id < |ledger| && !ledger[id].folded && ledger[id].span.tenant == tenant
            && (maxAttempts == None || ledger[id].attempts < maxAttempts.value))
      && (forall id | from <= id < |ledger| && id !in ids ::
            || ledger[id].folded || ledger[id].span.tenant != tenant
            || (maxAttempts.Some? && maxAttempts.value <= ledger[id].attempts)
            || (|ids| == limit && forall other <- ids :: other < id))
    decreases |ledger| - from
  {
    if from < |ledger| && limit > 0 {
      if Claimable(ledger[from], tenant, maxAttempts) {
        var rest := Claim(ledger, from + 1, tenant, limit - 1, maxAttempts);
        ClaimIsOldest(ledger, from + 1, tenant, limit - 1, maxAttempts);
        forall i, j | 0 <= i < j < |rest| + 1
          ensures ([from] + rest)[i] < ([from] + rest)[j]
        {
          assert ([from] + rest)[j] == rest[j - 1] && rest[j - 1] in rest;
        }
      } else {
        ClaimIsOldest(ledger, from + 1, tenant, limit, maxAttempts);
      }
    }
  }

  // ----- the committed effects -----

  function Known(ledger: seq<Row>): set<(string, string)> {
    set row | row in ledger :: Key(row.span)
  }

  lemma KnownGrows(ledger: seq<Row>, span: Span)
    ensures Known(ledger + [Row(span, false, false, 0)]) == Known(ledger) + {Key(span)}
  {
  }

  /** `insert_events` for one span: a known one is ignored, a new one is pending, uncounted, never
      attempted. */
  function Insert(db: Db, span: Span): Db {
    if Key(span) in Known(db.ledger) then db else db.(ledger := db.ledger + [Row(span, false, false, 0)])
  }

  /** The first event under each key that is not known yet. */
  function FirstOfEach(known: set<(string, string)>, spans: seq<Span>): seq<Event>
    decreases |spans|
  {
    if spans == [] then []
    else if Key(spans[0]) in known then FirstOfEach(known, spans[1..])
    else [spans[0].event] + FirstOfEach(known + {Key(spans[0])}, spans[1..])
  }

  function Stamped(ledger: seq<Row>, ids: seq<nat>): seq<Row> {
    seq(|ledger|, i requires 0 <= i < |ledger| => if i in ids then ledger[i].(counted := true) else ledger[i])
  }

  /** The inventory after projecting, in order, the claimed rows that are not counted yet. */
  function CountInto(table: Table, ledger: seq<Row>, ids: seq<nat>): Table
    requires InRange(ids, ledger)
  {
    if ids == [] then table
    else
      var before := CountInto(table, ledger, ids[..|ids| - 1]);
      var id := ids[|ids| - 1];
      if ledger[id].counted then before else Project(before, ledger[id].event)
  }

  /** The committed `process_events` transaction: count and stamp together. */
  function Count(db: Db, ids: seq<nat>): Db
    requires InRange(ids, db.ledger)
  {
    db.(inventory := CountInto(db.inventory, db.ledger, ids), ledger := Stamped(db.ledger, ids))
  }

  function Pairs(ids: seq<nat>, projection: nat): set<(nat, nat)> {
    set id | id in ids :: (id, projection)
  }

  /** Projection number `projection` completing on a claimed set. */
  function Advance(db: Db, ids: seq<nat>, projection: nat): Db
    requires InRange(ids, db.ledger)
  {
    var db' := if projection == 0 then Count(db, ids) else db;
    db'.(done := db'.done + Pairs(ids, projection))
  }

  /** The first `upTo` projections completing on a claimed set. */
  function Passed(db: Db, ids: seq<nat>, upTo: nat): (db': Db)
    requires InRange(ids, db.ledger)
    ensures |db'.ledger| == |db.ledger|
  {
    if upTo == 0 then db else Advance(Passed(db, ids, upTo - 1), ids, upTo - 1)
  }

  function MarkFolded(db: Db, ids: seq<nat>): Db {
    db.(ledger := seq(|db.ledger|, i requires 0 <= i < |db.ledger| =>
      if i in ids then db.ledger[i].(folded := true) else db.ledger[i]))
  }

  function RecordAttempts(db: Db, ids: seq<nat>): Db {
    db.(ledger := seq(|db.ledger|, i requires 0 <= i < |db.ledger| =>
      if i in ids && !db.ledger[i].folded then db.ledger[i].(attempts := db.ledger[i].attempts + 1)
      else db.ledger[i]))
  }

  /** `insert_events` for a delivered batch. */
  function InsertAll(db: Db, spans: seq<Span>): Db
    decreases |spans|
  {
    if spans == [] then db else InsertAll(Insert(db, spans[0]), spans[1..])
  }

  // ----- what the inventory must equal -----

  /** The sum of a row's contributions over exactly the rows stamped counted. */
  function Total(ledger: seq<Row>, entity: Entity): Aggregate {
    if ledger == [] then ZERO
    else
      var last := ledger[|ledger| - 1];
      Plus(Total(ledger[..|ledger| - 1], entity), if last.counted then Contribution(last.event, entity) else ZERO)
  }

  /** Some counted row touches the entity. */
  ghost predicate Observed(ledger: seq<Row>, entity: Entity) {
    exists i :: 0 <= i < |ledger| && ledger[i].counted && entity in Touched(ledger[i].event)
  }

  /** Exactly-once: the inventory is the sum over the counted rows, and has no other rows. */
  ghost predicate ExactlyOnce(db: Db) {
    forall entity :: Lookup(db.inventory, entity) == Total(db.ledger, entity)
                     && (entity in db.inventory <==> Observed(db.ledger, entity))
  }

  /** A row is folded only after every projection, counting included, has completed on it. */
  ghost predicate FoldedIsProjected(db: Db) {
    && (forall i, p :: 0 <= i < |db.ledger| && db.ledger[i].folded && 0 <= p < PROJECTIONS ==> (i, p) in db.done)
    && (forall i, p {:trigger (i, p) in db.done} :: (i, p) in db.done ==> i < |db.ledger| && p < PROJECTIONS)
    && (forall i :: 0 <= i < |db.ledger| && (i, 0) in db.done ==> db.ledger[i].counted)
  }

  ghost predicate Sound(db: Db) {
    ExactlyOnce(db) && FoldedIsProjected(db)
  }

  /** One pass over the raw ledger, from an empty inventory. */
  function OnePass(ledger: seq<Row>): Table {
    if ledger == [] then map[] else Project(OnePass(ledger[..|ledger| - 1]), ledger[|ledger| - 1].event)
  }

  // ----- counting keeps exactly-once -----

  /** Stamping one uncounted row adds exactly its contribution to the sum. */
  lemma {:induction false} TotalAfterStamp(ledger: seq<Row>, id: nat, entity: Entity)
    requires id < |ledger| && !ledger[id].counted
    ensures Total(ledger[id := ledger[id].(counted := true)], entity)
         == Plus(Total(ledger, entity), Contribution(ledger[id].event, entity))
  {
    hide Contribution, Touched, Plus;
    var stamped := ledger[id := ledger[id].(counted := true)];
    var n := |ledger| - 1;
    PlusLaws(Total(ledger[..n], entity), ZERO, ZERO);
    if id < n {
      TotalAfterStamp(ledger[..n], id, entity);
      assert stamped[..n] == ledger[..n][id := ledger[id].(counted := true)];
      var c := Contribution(ledger[id].event, entity);
      var last := if ledger[n].counted then Contribution(ledger[n].event, entity) else ZERO;
      PlusLaws(Total(ledger[..n], entity), c, last);
      PlusLaws(c, last, ZERO);
      PlusLaws(Total(ledger[..n], entity), last, c);
    } else {
      assert stamped[..n] == ledger[..n];
    }
  }

  /** One row counted and stamped. */
  lemma {:induction false} CountOneKeeps(table: Table, ledger: seq<Row>, id: nat)
    requires id < |ledger| && !ledger[id].counted && ExactlyOnce(Db(ledger, table, {}))
    ensures ExactlyOnce(Db(ledger[id := ledger[id].(counted := true)], Project(table, ledger[id].event), {}))
  {
    hide Contribution, Touched, Plus, Lookup, Project, Total;
    var stamped := ledger[id := ledger[id].(counted := true)];
    var table' := Project(table, ledger[id].event);
    forall entity
      ensures Lookup(table', entity) == Total(stamped, entity)
      ensures entity in table' <==> Observed(stamped, entity)
    {
      assert Lookup(Db(ledger, table, {}).inventory, entity) == Total(ledger, entity);
      ProjectKeys(table, ledger[id].event);
      TotalAfterStamp(ledger, id, entity);
      LookupProject(table, ledger[id].event, entity);
      if Observed(ledger, entity) {
        var i :| 0 <= i < |ledger| && ledger[i].counted && entity in Touched(ledger[i].event);
        assert stamped[i].counted && stamped[i].event == ledger[i].event;
      }
      if entity in Touched(ledger[id].event) {
        assert stamped[id].counted;
      }
      if Observed(stamped, entity) && entity !in Touched(ledger[id].event) {
        var i :| 0 <= i < |stamped| && stamped[i].counted && entity in Touched(stamped[i].event);
        assert ledger[i].counted;
      }
    }
  }

  /** Whatever was counted before, and whichever rows are claimed, the counting transaction keeps
      exactly-once: rows already stamped add nothing. */
  lemma {:induction false} CountKeeps(db: Db, ids: seq<nat>)
    requires InRange(ids, db.ledger) && Ascending(ids) && ExactlyOnce(db)
    ensures ExactlyOnce(Count(db, ids))
  {
    hide Contribution, Touched;
    if ids == [] {
      assert Stamped(db.ledger, ids) == db.ledger;
    } else {
      var n := |ids| - 1;
      var id := ids[n];
      CountKeeps(db, ids[..n]);
      var before := Count(db, ids[..n]);
      assert before.ledger[id] == db.ledger[id];
      assert ids == ids[..n] + [id];
      if db.ledger[id].counted {
        assert Stamped(db.ledger, ids) == before.ledger;
      } else {
        assert ExactlyOnce(Db(before.ledger, before.inventory, {}));
        CountOneKeeps(before.inventory, before.ledger, id);
        assert Stamped(db.ledger, ids) == before.ledger[id := before.ledger[id].(counted := true)];
        assert ExactlyOnce(Db(Stamped(db.ledger, ids), CountInto(db.inventory, db.ledger, ids), {}));
      }
    }
  }

  /** The sum depends on events and counted stamps only. */
  lemma {:induction false} TotalFrame(a: seq<Row>, b: seq<Row>, entity: Entity)
    requires |a| == |b| && forall i :: 0 <= i < |a| ==> a[i].event == b[i].event && a[i].counted == b[i].counted
    ensures Total(a, entity) == Total(b, entity)
    ensures Observed(a, entity) <==> Observed(b, entity)
  {
    hide Contribution, Touched, Plus;
    if a != [] {
      TotalFrame(a[..|a| - 1], b[..|b| - 1], entity);
    }
    if Observed(a, entity) {
      var i :| 0 <= i < |a| && a[i].counted && entity in Touched(a[i].event);
      assert b[i].counted;
    }
    if Observed(b, entity) {
      var i :| 0 <= i < |b| && b[i].counted && entity in Touched(b[i].event);
      assert a[i].counted;
    }
  }

  lemma ExactlyOnceFrame(a: Db, b: Db)
    requires ExactlyOnce(a) && a.inventory == b.inventory && |a.ledger| == |b.ledger|
    requires forall i :: 0 <= i < |a.ledger| ==>
      a.ledger[i].event == b.ledger[i].event && a.ledger[i].counted == b.ledger[i].counted
    ensures ExactlyOnce(b)
  {
    forall entity
      ensures Lookup(b.inventory, entity) == Total(b.ledger, entity)
              && (entity in b.inventory <==> Observed(b.ledger, entity))
    {
      TotalFrame(a.ledger, b.ledger, entity);
      assert Lookup(a.inventory, entity) == Total(a.ledger, entity);
    }
  }

  // ----- every committed effect keeps the ledger sound -----

  /** A delivered span is stored unless its key is: redelivery changes nothing. */
  lemma {:induction false} InsertKeeps(db: Db, span: Span)
    requires Sound(db)
    ensures Sound(Insert(db, span))
    ensures var ledger := Insert(db, span).ledger;
      && db.ledger <= ledger && |ledger| == |db.ledger| + (if Key(span) in Known(db.ledger) then 0 else 1)
      && Known(ledger) == Known(db.ledger) + {Key(span)}
  {
    hide Contribution, Touched, Plus, Lookup, Known;
    var db' := Insert(db, span);
    if Key(span) !in Known(db.ledger) {
      KnownGrows(db.ledger, span);
      forall entity
        ensures Lookup(db'.inventory, entity) == Total(db'.ledger, entity)
                && (entity in db'.inventory <==> Observed(db'.ledger, entity))
      {
        assert Lookup(db.inventory, entity) == Total(db.ledger, entity);
        assert db'.ledger[..|db'.ledger| - 1] == db.ledger;
        PlusLaws(Total(db.ledger, entity), ZERO, ZERO);
        if Observed(db.ledger, entity) {
          var i :| 0 <= i < |db.ledger| && db.ledger[i].counted && entity in Touched(db.ledger[i].event);
          assert db'.ledger[i] == db.ledger[i];
        }
      }
    }
  }

  lemma {:induction false} BatchBecomesKnown(db: Db, spans: seq<Span>)
    ensures Known(db.ledger) <= Known(InsertAll(db, spans).ledger)
    ensures forall span <- spans :: Key(span) in Known(InsertAll(db, spans).ledger)
    decreases |spans|
  {
    hide Known;
    if spans != [] {
      if Key(spans[0]) !in Known(db.ledger) {
        KnownGrows(db.ledger, spans[0]);
      }
      BatchBecomesKnown(Insert(db, spans[0]), spans[1..]);
    }
  }

  lemma {:induction false} KnownBatchIsIgnored(db: Db, spans: seq<Span>)
    requires forall span <- spans :: Key(span) in Known(db.ledger)
    ensures InsertAll(db, spans) == db && FirstOfEach(Known(db.ledger), spans) == []
    decreases |spans|
  {
    hide Known;
    if spans != [] {
      KnownBatchIsIgnored(db, spans[1..]);
    }
  }

  /** A retried batch inserts nothing and reports nothing inserted. */
  lemma RedeliveryChangesNothing(db: Db, spans: seq<Span>)
    ensures var once := InsertAll(db, spans);
      InsertAll(once, spans) == once && FirstOfEach(Known(once.ledger), spans) == []
  {
    hide Known;
    BatchBecomesKnown(db, spans);
    KnownBatchIsIgnored(InsertAll(db, spans), spans);
  }

  lemma {:induction false} AdvanceKeeps(db: Db, ids: seq<nat>, projection: nat)
    requires Sound(db) && InRange(ids, db.ledger) && Ascending(ids) && projection < PROJECTIONS
    ensures Sound(Advance(db, ids, projection))
  {
    hide Contribution, Touched;
    var db' := Advance(db, ids, projection);
    if projection == 0 {
      CountKeeps(db, ids);
      ExactlyOnceFrame(Count(db, ids), db');
    } else {
      ExactlyOnceFrame(db, db');
    }
    forall i, p {:trigger (i, p) in db'.done} | (i, p) in db'.done
      ensures i < |db'.ledger| && p < PROJECTIONS && (p == 0 ==> db'.ledger[i].counted)
    {
      if (i, p) !in db.done {
        assert i in ids;
        var k :| 0 <= k < |ids| && ids[k] == i;
      }
    }
  }

  /** A row may be marked only once all eleven projections completed on it. */
  lemma MarkKeeps(db: Db, ids: seq<nat>)
    requires Sound(db) && forall id, p :: id in ids && 0 <= p < PROJECTIONS ==> (id, p) in db.done
    ensures Sound(MarkFolded(db, ids))
  {
    ExactlyOnceFrame(db, MarkFolded(db, ids));
  }

  lemma {:induction false} AttemptKeeps(db: Db, ids: seq<nat>)
    requires Sound(db)
    ensures Sound(RecordAttempts(db, ids))
  {
    ExactlyOnceFrame(db, RecordAttempts(db, ids));
  }

  /** After `upTo` projections: the ledger is sound and those projections are on record. */
  lemma {:induction false} PassedKeeps(db: Db, ids: seq<nat>, upTo: nat)
    requires Sound(db) && InRange(ids, db.ledger) && Ascending(ids) && upTo <= PROJECTIONS
    ensures Sound(Passed(db, ids, upTo))
    ensures forall id, p :: id in ids && 0 <= p < upTo ==> (id, p) in Passed(db, ids, upTo).done
  {
    hide Contribution, Touched, ExactlyOnce, FoldedIsProjected, Count;
    if upTo > 0 {
      PassedKeeps(db, ids, upTo - 1);
      AdvanceKeeps(Passed(db, ids, upTo - 1), ids, upTo - 1);
    }
  }

  // ----- once everything is folded -----

  lemma EmptyLookup(entity: Entity)
    ensures Lookup(map[], entity) == ZERO
  {
  }

  lemma {:induction false} OnePassIsTotal(ledger: seq<Row>, entity: Entity)
    requires forall i :: 0 <= i < |ledger| ==> ledger[i].counted
    ensures Lookup(OnePass(ledger), entity) == Total(ledger, entity)
    ensures entity in OnePass(ledger) <==> Observed(ledger, entity)
  {
    hide Contribution, Touched, Plus, Lookup, Project;
    EmptyLookup(entity);
    if ledger != [] {
      var n := |ledger| - 1;
      OnePassIsTotal(ledger[..n], entity);
      LookupProject(OnePass(ledger[..n]), ledger[n].event, entity);
      ProjectKeys(OnePass(ledger[..n]), ledger[n].event);
      if Observed(ledger[..n], entity) {
        var i :| 0 <= i < n && ledger[..n][i].counted && entity in Touched(ledger[..n][i].event);
        assert ledger[i] == ledger[..n][i];
      }
      if Observed(ledger, entity) && entity !in Touched(ledger[n].event) {
        var i :| 0 <= i < |ledger| && ledger[i].counted && entity in Touched(ledger[i].event);
        assert ledger[..n][i] == ledger[i];
      }
    }
  }

  /** When no row is pending, the inventory is the one a single pass over the raw ledger builds,
      however the rows were batched, retried or reordered on the way. */
  lemma {:induction false} AllFoldedEqualsOnePass(db: Db)
    requires Sound(db) && forall i :: 0 <= i < |db.ledger| ==> db.ledger[i].folded
    ensures db.inventory == OnePass(db.ledger)
  {
    hide Contribution, Touched;
    forall i | 0 <= i < |db.ledger|
      ensures db.ledger[i].counted
    {
      assert (i, 0) in db.done;
    }
    forall entity
      ensures entity in db.inventory <==> entity in OnePass(db.ledger)
      ensures Lookup(db.inventory, entity) == Lookup(OnePass(db.ledger), entity)
    {
      OnePassIsTotal(db.ledger, entity);
      assert Lookup(db.inventory, entity) == Total(db.ledger, entity);
    }
    forall entity | entity in db.inventory
      ensures db.inventory[entity] == OnePass(db.ledger)[entity]
    {
      assert Lookup(db.inventory, entity) == Lookup(OnePass(db.ledger), entity);
    }
    assert db.inventory.Keys == OnePass(db.ledger).Keys;
  }
}
