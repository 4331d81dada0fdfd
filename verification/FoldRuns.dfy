/** Request passes, whole-set sweeps and row-by-row sweeps racing over one ledger.  Each committed
    transaction is one step; between any two steps of a worker every other worker may run, a
    projection may raise, and a worker may die. */
module FoldRuns {

  import opened Common
  import opened Inventory
  import opened Ledger
  import Fold

  datatype Mode = Request | SweepSet | SweepRow(rest: seq<nat>)

  /** A pass in flight: the rows it claimed and the next projection it will run on them. */
  datatype Worker = Worker(ids: seq<nat>, next: nat, mode: Mode)

  /** `failures` counts the request passes that raised. */
  datatype System = System(db: Db, workers: map<nat, Worker>, failures: nat)

  const START := System(EMPTY, map[], 0)

  datatype Step =
    | Arrive(span: Span)
    | BeginRequest(worker: nat, tenant: string, limit: nat, maxAttempts: Option<nat>)
    | BeginSweep(worker: nat, tenant: string, limit: nat)
    | RunProjection(worker: nat)
    | Raise(worker: nat)
    | Finish(worker: nat)
    | Die(worker: nat)

  ghost predicate InFlight(s: System) {
    forall w <- s.workers :: InRange(s.workers[w].ids, s.db.ledger) && s.workers[w].ids != []
  }

  function Begin(s: System, w: nat, ids: seq<nat>, mode: Mode): System {
    if w in s.workers || ids == [] then s else s.(workers := s.workers[w := Worker(ids, 0, mode)])
  }

  /** A sweeper moves on to its next single row, or is done. */
  function NextRow(workers: map<nat, Worker>, w: nat, rest: seq<nat>): map<nat, Worker> {
    if rest == [] then workers - {w} else workers[w := Worker([rest[0]], 0, SweepRow(rest[1..]))]
  }

  /** One committed transaction; a step that is not enabled changes nothing. */
  ghost function Apply(s: System, step: Step): System
    requires InFlight(s)
  {
    match step
    case Arrive(span) => s.(db := Insert(s.db, span))
    case BeginRequest(w, tenant, limit, maxAttempts) =>
      Begin(s, w, Claim(s.db.ledger, 0, tenant, limit, maxAttempts), Request)
    case BeginSweep(w, tenant, limit) => Begin(s, w, Claim(s.db.ledger, 0, tenant, limit, None), SweepSet)
    case RunProjection(w) =>
      if w !in s.workers || s.workers[w].next >= PROJECTIONS then s
      else
        var worker := s.workers[w];
        s.(db := Advance(s.db, worker.ids, worker.next), workers := s.workers[w := worker.(next := worker.next + 1)])
    case Raise(w) =>
      if w !in s.workers || s.workers[w].next >= PROJECTIONS then s
      else
        var worker := s.workers[w];
        (match worker.mode
         case Request =>
           System(RecordAttempts(s.db, worker.ids), s.workers - {w}, s.failures + 1)
         case SweepSet => s.(workers := NextRow(s.workers, w, worker.ids))
         case SweepRow(rest) =>
           s.(db := RecordAttempts(s.db, worker.ids), workers := NextRow(s.workers, w, rest)))
    case Finish(w) =>
      if w !in s.workers || s.workers[w].next < PROJECTIONS then s
      else
        var worker := s.workers[w];
        s.(db := MarkFolded(s.db, worker.ids),
           workers := if worker.mode.SweepRow? then NextRow(s.workers, w, worker.mode.rest) else s.workers - {w})
    case Die(w) => s.(workers := s.workers - {w})
  }

  /** Every projection a pass has gone past is on record for the rows it holds. */
  ghost predicate WorkerOk(db: Db, worker: Worker) {
    && worker.ids != [] && Ascending(worker.ids) && InRange(worker.ids, db.ledger) && worker.next <= PROJECTIONS
    && (forall id, p :: id in worker.ids && 0 <= p < worker.next ==> (id, p) in db.done)
    && (worker.mode.SweepRow? ==> InRange(worker.mode.rest, db.ledger))
  }

  ghost predicate Invariant(s: System) {
    Sound(s.db) && forall w <- s.workers :: WorkerOk(s.db, s.workers[w])
  }

  lemma WorkersSurvive(a: Db, b: Db, workers: map<nat, Worker>)
    requires forall w <- workers :: WorkerOk(a, workers[w])
    requires |a.ledger| <= |b.ledger| && a.done <= b.done
    ensures forall w <- workers :: WorkerOk(b, workers[w])
  {
    forall w <- workers
      ensures WorkerOk(b, workers[w])
    {
      assert WorkerOk(a, workers[w]);
    }
  }

  lemma NextRowKeeps(db: Db, workers: map<nat, Worker>, w: nat, rest: seq<nat>)
    requires forall v <- workers :: WorkerOk(db, workers[v])
    requires InRange(rest, db.ledger)
    ensures forall v <- NextRow(workers, w, rest) :: WorkerOk(db, NextRow(workers, w, rest)[v])
  {
  }

  lemma {:induction false} StepKeeps(s: System, step: Step)
    requires Invariant(s)
    ensures InFlight(s) && Invariant(Apply(s, step))
  {
    hide ExactlyOnce, FoldedIsProjected, Count, Total, NextRow, Claim;
    match step
    case Arrive(span) =>
      InsertKeeps(s.db, span);
      WorkersSurvive(s.db, Insert(s.db, span), s.workers);
    case BeginRequest(_, tenant, limit, maxAttempts) =>
      ClaimIsOldest(s.db.ledger, 0, tenant, limit, maxAttempts);
    case BeginSweep(_, tenant, limit) =>
      ClaimIsOldest(s.db.ledger, 0, tenant, limit, None);
    case RunProjection(w) =>
      if w in s.workers && s.workers[w].next < PROJECTIONS {
        var worker := s.workers[w];
        AdvanceKeeps(s.db, worker.ids, worker.next);
        AdvanceFrame(s.db, worker.ids, worker.next);
        WorkersSurvive(s.db, Advance(s.db, worker.ids, worker.next), s.workers);
      }
    case Raise(w) =>
      if w in s.workers && s.workers[w].next < PROJECTIONS {
        var worker := s.workers[w];
        AttemptKeeps(s.db, worker.ids);
        WorkersSurvive(s.db, RecordAttempts(s.db, worker.ids), s.workers);
        match worker.mode
        case Request =>
        case SweepSet => NextRowKeeps(s.db, s.workers, w, worker.ids);
        case SweepRow(rest) => NextRowKeeps(RecordAttempts(s.db, worker.ids), s.workers, w, rest);
      }
    case Finish(w) =>
      if w in s.workers && s.workers[w].next == PROJECTIONS {
        var worker := s.workers[w];
        MarkKeeps(s.db, worker.ids);
        WorkersSurvive(s.db, MarkFolded(s.db, worker.ids), s.workers);
        if worker.mode.SweepRow? {
          NextRowKeeps(MarkFolded(s.db, worker.ids), s.workers, w, worker.mode.rest);
        }
      }
    case Die(_) =>
  }

  /** A projection writes nothing in the ledger but the counted stamp, and forgets no history. */
  lemma AdvanceFrame(db: Db, ids: seq<nat>, projection: nat)
    requires InRange(ids, db.ledger)
    ensures var db' := Advance(db, ids, projection);
      && |db'.ledger| == |db.ledger| && db.done <= db'.done && (forall id <- ids :: (id, projection) in db'.done)
      && forall i :: 0 <= i < |db.ledger| ==>
        db'.ledger[i] == db.ledger[i].(counted := db'.ledger[i].counted)
  {
  }

  ghost function Run(s: System, steps: seq<Step>): System
    requires Invariant(s)
    decreases |steps|
  {
    if steps == [] then s
    else
      StepKeeps(s, steps[0]);
      Run(Apply(s, steps[0]), steps[1..])
  }

  lemma {:induction false} RunKeeps(s: System, steps: seq<Step>)
    requires Invariant(s)
    ensures Invariant(Run(s, steps))
    decreases |steps|
  {
    hide Apply;
    if steps != [] {
      StepKeeps(s, steps[0]);
      RunKeeps(Apply(s, steps[0]), steps[1..]);
    }
  }

  lemma StartIsFine()
    ensures Invariant(START)
  {
  }

  /** The state a run reaches from an empty database with no pass in flight. */
  ghost function FromStart(steps: seq<Step>): System {
    StartIsFine();
    Run(START, steps)
  }

  function Arrivals(steps: seq<Step>): seq<Span> {
    if steps == [] then []
    else (if steps[0].Arrive? then [steps[0].span] else []) + Arrivals(steps[1..])
  }

  function Events(ledger: seq<Row>): seq<Event> {
    if ledger == [] then [] else Events(ledger[..|ledger| - 1]) + [ledger[|ledger| - 1].event]
  }

  function ProjectAll(events: seq<Event>): Table {
    if events == [] then map[] else Project(ProjectAll(events[..|events| - 1]), events[|events| - 1])
  }

  /** The rows of `b` continue those of `a`: same events, no fold or attempt undone. */
  ghost predicate Later(a: seq<Row>, b: seq<Row>) {
    |a| <= |b| && forall i :: 0 <= i < |a| ==>
      && b[i].span == a[i].span
      && (a[i].folded ==> b[i].folded) && a[i].attempts <= b[i].attempts && (a[i].counted ==> b[i].counted)
  }

  lemma StepIsLater(s: System, step: Step)
    requires Invariant(s)
    ensures InFlight(s) && Later(s.db.ledger, Apply(s, step).db.ledger)
    ensures step.Arrive? ==> Apply(s, step) == s.(db := Insert(s.db, step.span))
    ensures !step.Arrive? ==> |Apply(s, step).db.ledger| == |s.db.ledger|
  {
    hide Project, ExactlyOnce, FoldedIsProjected, CountInto, Claim, Known;
  }

  lemma {:induction false} EventsOf(a: seq<Row>, b: seq<Row>)
    requires |a| == |b| && forall i :: 0 <= i < |a| ==> a[i].event == b[i].event
    ensures Events(a) == Events(b)
  {
    if a != [] {
      EventsOf(a[..|a| - 1], b[..|b| - 1]);
    }
  }

  /** Nothing that ran undid a fold, an attempt or a count, or rewrote a span. */
  lemma {:induction false} RunIsLater(s: System, steps: seq<Step>)
    requires Invariant(s)
    ensures Later(s.db.ledger, Run(s, steps).db.ledger)
    decreases |steps|
  {
    hide Apply, Sound, WorkerOk, InFlight;
    if steps != [] {
      StepKeeps(s, steps[0]);
      StepIsLater(s, steps[0]);
      RunIsLater(Apply(s, steps[0]), steps[1..]);
    }
  }

  lemma InsertEvents(db: Db, span: Span)
    ensures Events(Insert(db, span).ledger) == Events(db.ledger) + FirstOfEach(Known(db.ledger), [span])
    ensures Known(Insert(db, span).ledger) == Known(db.ledger) + {Key(span)}
  {
    hide Known;
    assert FirstOfEach(Known(db.ledger) + {Key(span)}, []) == [];
    if Key(span) !in Known(db.ledger) {
      KnownGrows(db.ledger, span);
      assert Insert(db, span).ledger[..|db.ledger|] == db.ledger;
    }
  }

  /** Spans delivered one after another: the ledger gains the first event under each new key. */
  lemma {:induction false} FirstThenRest(known: set<(string, string)>, span: Span, rest: seq<Span>)
    ensures FirstOfEach(known, [span] + rest)
         == FirstOfEach(known, [span]) + FirstOfEach(known + {Key(span)}, rest)
  {
    assert ([span] + rest)[1..] == rest;
    assert FirstOfEach(known + {Key(span)}, []) == [];
    if Key(span) in known {
      assert known + {Key(span)} == known;
      assert FirstOfEach(known, [span]) == [];
    }
  }

  lemma StepEvents(s: System, step: Step)
    requires Invariant(s)
    ensures InFlight(s)
    ensures var before, after := s.db.ledger, Apply(s, step).db.ledger;
      if step.Arrive? then
        && Events(after) == Events(before) + FirstOfEach(Known(before), [step.span])
        && Known(after) == Known(before) + {Key(step.span)}
      else Events(after) == Events(before) && Known(after) == Known(before)
  {
    hide Apply, Sound, WorkerOk, InFlight;
    StepIsLater(s, step);
    var before, after := s.db.ledger, Apply(s, step).db.ledger;
    if step.Arrive? {
      InsertEvents(s.db, step.span);
    } else {
      EventsOf(before, after);
      KnownOf(before, after);
    }
  }

  lemma KnownOf(a: seq<Row>, b: seq<Row>)
    requires |a| == |b| && forall i :: 0 <= i < |a| ==> a[i].span == b[i].span
    ensures Known(a) == Known(b)
  {
    forall key | key in Known(a)
      ensures key in Known(b)
    {
      var i :| 0 <= i < |a| && Key(a[i].span) == key;
      assert b[i] in b;
    }
    forall key | key in Known(b)
      ensures key in Known(a)
    {
      var i :| 0 <= i < |b| && Key(b[i].span) == key;
      assert a[i] in a;
    }
  }

  /** The ledger holds the first event of everything delivered, in order, whatever else ran and
      however often a span was delivered again. */
  lemma {:induction false} LedgerIsArrivals(s: System, steps: seq<Step>)
    requires Invariant(s)
    ensures Events(Run(s, steps).db.ledger)
         == Events(s.db.ledger) + FirstOfEach(Known(s.db.ledger), Arrivals(steps))
    decreases |steps|
  {
    hide Apply, Sound, WorkerOk, InFlight, Events, FirstOfEach, Known;
    var known := Known(s.db.ledger);
    if steps == [] {
      NothingDelivered(known);
    } else {
      StepKeeps(s, steps[0]);
      var s' := Apply(s, steps[0]);
      StepEvents(s, steps[0]);
      LedgerIsArrivals(s', steps[1..]);
      assert Run(s, steps) == Run(s', steps[1..]);
      if !steps[0].Arrive? {
        assert Arrivals(steps) == Arrivals(steps[1..]);
      } else {
        FirstThenRest(known, steps[0].span, Arrivals(steps[1..]));
        var rest := FirstOfEach(Known(s'.db.ledger), Arrivals(steps[1..]));
        assert Events(s.db.ledger) + (FirstOfEach(known, [steps[0].span]) + rest) == Events(s'.db.ledger) + rest;
      }
    }
  }

  lemma NothingDelivered(known: set<(string, string)>)
    ensures FirstOfEach(known, []) == []
  {
  }

  lemma {:induction false} OnePassOfEvents(ledger: seq<Row>)
    ensures OnePass(ledger) == ProjectAll(Events(ledger))
  {
    hide Project;
    if ledger != [] {
      OnePassOfEvents(ledger[..|ledger| - 1]);
    }
  }

  lemma InvariantIsSound(s: System)
    requires Invariant(s)
    ensures Sound(s.db)
  {
  }

  /** What was stored of everything delivered, each span once. */
  function Stored(steps: seq<Step>): seq<Event> {
    FirstOfEach({}, Arrivals(steps))
  }

  /** Exactly-once counting over every interleaving.  At any moment each inventory row is the sum
      over exactly the counted rows, and a folded row has passed all eleven projections; and once no
      row is pending, the inventory is what one pass over the spans delivered would build, each span
      taken once however often it was delivered. */
  lemma ExactlyOnceCounting(steps: seq<Step>)
    ensures Sound(FromStart(steps).db)
    ensures var db := FromStart(steps).db;
      && Events(db.ledger) == Stored(steps)
      && ((forall i :: 0 <= i < |db.ledger| ==> db.ledger[i].folded) ==> db.inventory == ProjectAll(Stored(steps)))
  {
    hide Apply, Run, Project, Invariant, ExactlyOnce, FoldedIsProjected, OnePass, ProjectAll, Arrivals, Later,
      FirstOfEach;
    StartIsFine();
    RunKeeps(START, steps);
    InvariantIsSound(FromStart(steps));
    LedgerIsArrivals(START, steps);
    var db := FromStart(steps).db;
    assert Known(START.db.ledger) == {};
    assert Events(START.db.ledger) + Stored(steps) == Stored(steps);
    if forall i :: 0 <= i < |db.ledger| ==> db.ledger[i].folded {
      AllFoldedEqualsOnePass(db);
      OnePassOfEvents(db.ledger);
    }
  }

  // ----- an uninterrupted pass is a run -----

  function Projections(w: nat, count: nat): seq<Step> {
    seq(count, _ => RunProjection(w))
  }

  lemma {:induction false} RunJoins(s: System, first: seq<Step>, second: seq<Step>)
    requires Invariant(s)
    ensures Invariant(Run(s, first)) && Run(s, first + second) == Run(Run(s, first), second)
    decreases |first|
  {
    hide Apply;
    RunKeeps(s, first);
    if first == [] {
      assert first + second == second;
    } else {
      StepKeeps(s, first[0]);
      assert (first + second)[1..] == first[1..] + second;
      RunJoins(Apply(s, first[0]), first[1..], second);
    }
  }

  lemma {:induction false} RunsProjections(s: System, w: nat, start: Db, count: nat)
    requires Invariant(s) && w in s.workers && s.workers[w].next + count <= PROJECTIONS
    requires InRange(s.workers[w].ids, start.ledger) && s.db == Passed(start, s.workers[w].ids, s.workers[w].next)
    ensures var worker := s.workers[w];
      Run(s, Projections(w, count)) == s.(db := Passed(start, worker.ids, worker.next + count),
                                          workers := s.workers[w := worker.(next := worker.next + count)])
    decreases count
  {
    hide Advance, Sound, WorkerOk;
    var worker := s.workers[w];
    if count == 0 {
      assert s.workers[w := worker] == s.workers;
    } else {
      StepKeeps(s, RunProjection(w));
      var s' := Apply(s, RunProjection(w));
      RunsProjections(s', w, start, count - 1);
      assert Projections(w, count)[1..] == Projections(w, count - 1);
    }
  }

  lemma NonePassed(db: Db, ids: seq<nat>)
    requires InRange(ids, db.ledger)
    ensures Passed(db, ids, 0) == db
  {
  }

  function Ending(w: nat, fault: Fold.Fault): Step {
    if Fold.Raises(fault) then Raise(w) else Finish(w)
  }

  /** What a worker does on the rows in its hands. */
  function Burst(w: nat, fault: Fold.Fault): seq<Step> {
    Projections(w, Fold.Reached(fault)) + [Ending(w, fault)]
  }

  /** A worker that has just taken up its rows, once its projections have run. */
  function Projected(s: System, w: nat, fault: Fold.Fault): System
    requires w in s.workers && InRange(s.workers[w].ids, s.db.ledger)
  {
    var worker := s.workers[w];
    s.(db := Passed(s.db, worker.ids, Fold.Reached(fault)),
       workers := s.workers[w := worker.(next := Fold.Reached(fault))])
  }

  lemma BurstRuns(s: System, w: nat, fault: Fold.Fault)
    requires Invariant(s) && w in s.workers && s.workers[w].next == 0
    ensures InRange(s.workers[w].ids, s.db.ledger) && Invariant(Projected(s, w, fault))
    ensures InFlight(Projected(s, w, fault))
    ensures Run(s, Burst(w, fault)) == Apply(Projected(s, w, fault), Ending(w, fault))
  {
    hide Apply, Sound, Passed, Projections;
    assert WorkerOk(s.db, s.workers[w]);
    NonePassed(s.db, s.workers[w].ids);
    RunsProjections(s, w, s.db, Fold.Reached(fault));
    RunKeeps(s, Projections(w, Fold.Reached(fault)));
    var middle := Projected(s, w, fault);
    RunJoins(s, Projections(w, Fold.Reached(fault)), [Ending(w, fault)]);
    StepKeeps(middle, Ending(w, fault));
    assert Run(middle, [Ending(w, fault)]) == Run(Apply(middle, Ending(w, fault)), []);
  }

  lemma RunNone(s: System)
    requires Invariant(s)
    ensures Run(s, []) == s
  {
  }

  lemma RunOne(s: System, step: Step, rest: seq<Step>)
    requires Invariant(s)
    ensures InFlight(s) && Invariant(Apply(s, step)) && Run(s, [step] + rest) == Run(Apply(s, step), rest)
  {
    hide Apply;
    StepKeeps(s, step);
    assert ([step] + rest)[1..] == rest;
  }

  /** The steps of a request pass that claims `ids`. */
  function RequestSteps(w: nat, tenant: string, limit: nat, maxAttempts: Option<nat>, ids: seq<nat>,
                        fault: Fold.Fault): seq<Step> {
    [BeginRequest(w, tenant, limit, maxAttempts)] + if ids == [] then [] else Burst(w, fault)
  }

  /** What `fold_pending` does when nobody interferes is one of the interleavings above, so
      everything proved about runs holds of it. */
  lemma RequestPassIsARun(s: System, w: nat, tenant: string, limit: nat, maxAttempts: Option<nat>, fault: Fold.Fault)
    requires Invariant(s) && w !in s.workers
    ensures var (db', result) := Fold.RequestPass(s.db, tenant, limit, maxAttempts, fault);
      var ids := Claim(s.db.ledger, 0, tenant, limit, maxAttempts);
      Run(s, RequestSteps(w, tenant, limit, maxAttempts, ids, fault))
        == System(db', s.workers, s.failures + if result.Raised? then 1 else 0)
  {
    hide Invariant, Passed, Claim, Burst, Run, MarkFolded, RecordAttempts, Fold.Reached;
    var ids := Claim(s.db.ledger, 0, tenant, limit, maxAttempts);
    var begin := BeginRequest(w, tenant, limit, maxAttempts);
    ClaimIsOldest(s.db.ledger, 0, tenant, limit, maxAttempts);
    StepKeeps(s, begin);
    var s1 := Apply(s, begin);
    RunOne(s, begin, if ids == [] then [] else Burst(w, fault));
    if ids == [] {
      RunNone(s1);
    } else {
      ClaimedRuns(s, s1, w, ids, fault);
    }
  }

  lemma ClaimedRuns(s: System, s1: System, w: nat, ids: seq<nat>, fault: Fold.Fault)
    requires Invariant(s1) && w !in s.workers && InRange(ids, s.db.ledger) && ids != []
    requires s1 == s.(workers := s.workers[w := Worker(ids, 0, Request)])
    ensures var passed := Passed(s.db, ids, Fold.Reached(fault));
      Run(s1, Burst(w, fault))
        == if Fold.Raises(fault) then System(RecordAttempts(passed, ids), s.workers, s.failures + 1)
           else s.(db := MarkFolded(passed, ids))
  {
    hide Run, Passed, Burst, Sound, MarkFolded, RecordAttempts;
    BurstRuns(s1, w, fault);
    assert Projected(s1, w, fault).workers - {w} == s.workers;
  }

  /** One row folded alone by a sweeper that has `rest` still to do. */
  lemma {:induction false} RowRuns(s: System, w: nat, id: nat, rest: seq<nat>, fault: Fold.Fault)
    requires Invariant(s) && w in s.workers && s.workers[w] == Worker([id], 0, SweepRow(rest))
    ensures id < |s.db.ledger|
    ensures Run(s, Burst(w, fault))
         == s.(db := Fold.SweepRow(s.db, id, fault), workers := NextRow(s.workers, w, rest))
  {
    hide Run, Passed, Burst, Sound, MarkFolded, RecordAttempts;
    BurstRuns(s, w, fault);
    assert s.workers[w].ids[0] == id;
    var changed := Projected(s, w, fault).workers;
    assert changed - {w} == s.workers - {w};
    if rest != [] {
      var next := Worker([rest[0]], 0, SweepRow(rest[1..]));
      assert changed[w := next] == s.workers[w := next];
    }
  }

  function RowSteps(w: nat, ids: seq<nat>, faults: nat -> Fold.Fault): seq<Step> {
    if ids == [] then []
    else RowSteps(w, ids[..|ids| - 1], faults) + Burst(w, faults(ids[|ids| - 1]))
  }

  function RowWorker(ids: seq<nat>, n: nat): Worker
    requires n < |ids|
  {
    Worker([ids[n]], 0, SweepRow(ids[n + 1..]))
  }

  lemma {:induction false} RowsRun(s: System, others: map<nat, Worker>, w: nat, ids: seq<nat>, n: nat,
                                   faults: nat -> Fold.Fault)
    requires Invariant(s) && InRange(ids, s.db.ledger) && n <= |ids| && ids != [] && w !in others
    requires s.workers == others[w := RowWorker(ids, 0)]
    ensures Run(s, RowSteps(w, ids[..n], faults))
         == s.(db := Fold.SweepRows(s.db, ids[..n], faults),
               workers := if n == |ids| then others else others[w := RowWorker(ids, n)])
    decreases n
  {
    hide Invariant, Burst, Passed, Fold.SweepRow;
    if n > 0 {
      var first := ids[..n - 1];
      assert ids[..n][..n - 1] == first;
      RowsRun(s, others, w, ids, n - 1, faults);
      RunKeeps(s, RowSteps(w, first, faults));
      var before := Run(s, RowSteps(w, first, faults));
      RowRuns(before, w, ids[n - 1], ids[n..], faults(ids[n - 1]));
      RunJoins(s, RowSteps(w, first, faults), Burst(w, faults(ids[n - 1])));
      if n == |ids| {
        assert others[w := RowWorker(ids, n - 1)] - {w} == others;
      } else {
        assert ids[n..][1..] == ids[n + 1..];
        assert others[w := RowWorker(ids, n - 1)][w := RowWorker(ids, n)] == others[w := RowWorker(ids, n)];
      }
    }
  }

  /** The steps of a sweep that claims `ids`: the whole set, and after a failure each row alone. */
  function SweepSteps(w: nat, tenant: string, limit: nat, ids: seq<nat>, setFault: Fold.Fault,
                      rowFaults: nat -> Fold.Fault): seq<Step> {
    [BeginSweep(w, tenant, limit)]
    + if ids == [] then []
      else Burst(w, setFault) + if Fold.Raises(setFault) then RowSteps(w, ids, rowFaults) else []
  }

  /** What `sweep_tenant` does when nobody interferes is one of the interleavings above too. */
  lemma SweepPassIsARun(s: System, w: nat, tenant: string, limit: nat, setFault: Fold.Fault,
                        rowFaults: nat -> Fold.Fault)
    requires Invariant(s) && w !in s.workers
    ensures var ids := Claim(s.db.ledger, 0, tenant, limit, None);
      Run(s, SweepSteps(w, tenant, limit, ids, setFault, rowFaults))
        == s.(db := Fold.SweepPass(s.db, tenant, limit, setFault, rowFaults))
  {
    hide Invariant, Passed, Claim, Burst, RowSteps, Fold.SweepRows, Run;
    var ids := Claim(s.db.ledger, 0, tenant, limit, None);
    var begin := BeginSweep(w, tenant, limit);
    ClaimIsOldest(s.db.ledger, 0, tenant, limit, None);
    StepKeeps(s, begin);
    var s1 := Apply(s, begin);
    var rest := SweepSteps(w, tenant, limit, ids, setFault, rowFaults)[1..];
    RunOne(s, begin, rest);
    assert SweepSteps(w, tenant, limit, ids, setFault, rowFaults) == [begin] + rest;
    if ids == [] {
      RunNone(s1);
    } else {
      SetRuns(s, s1, w, ids, setFault);
      RunKeeps(s1, Burst(w, setFault));
      var s2 := Run(s1, Burst(w, setFault));
      if Fold.Raises(setFault) {
        RunJoins(s1, Burst(w, setFault), RowSteps(w, ids, rowFaults));
        RowsRun(s2, s.workers, w, ids, |ids|, rowFaults);
        assert ids[..|ids|] == ids;
      } else {
        assert rest == Burst(w, setFault);
      }
    }
  }

  /** The first half of a sweep. */
  lemma {:induction false} SetRuns(s: System, s1: System, w: nat, ids: seq<nat>, fault: Fold.Fault)
    requires Invariant(s1) && w !in s.workers && InRange(ids, s.db.ledger) && ids != []
    requires s1 == s.(workers := s.workers[w := Worker(ids, 0, SweepSet)])
    ensures var passed := Passed(s.db, ids, Fold.Reached(fault));
      Run(s1, Burst(w, fault))
        == if Fold.Raises(fault) then s.(db := passed, workers := s.workers[w := RowWorker(ids, 0)])
           else s.(db := MarkFolded(passed, ids))
  {
    hide Run, Passed, Burst, Sound, MarkFolded;
    BurstRuns(s1, w, fault);
    var changed := Projected(s1, w, fault).workers;
    assert changed - {w} == s.workers;
    assert changed[w := RowWorker(ids, 0)] == s.workers[w := RowWorker(ids, 0)];
  }

  /** So a whole sweep keeps the ledger sound, whatever it finds failing. */
  lemma {:induction false} SweepKeepsSound(db: Db, tenant: string, limit: nat, setFault: Fold.Fault,
                                           rowFaults: nat -> Fold.Fault)
    requires Sound(db)
    ensures Sound(Fold.SweepPass(db, tenant, limit, setFault, rowFaults))
  {
    hide Sound, Run, SweepSteps, Fold.SweepPass, Claim;
    var s := System(db, map[], 0);
    SweepPassIsARun(s, 0, tenant, limit, setFault, rowFaults);
    RunKeeps(s, SweepSteps(0, tenant, limit, Claim(db.ledger, 0, tenant, limit, None), setFault, rowFaults));
  }

  // ----- the retry budget -----

  /** Fold attempts a row may still cost the request path. */
  function Remaining(row: Row, maxAttempts: nat): nat {
    if row.folded || row.attempts >= maxAttempts then 0 else maxAttempts - row.attempts
  }

  function Budget(ledger: seq<Row>, maxAttempts: nat): nat {
    if ledger == [] then 0
    else Budget(ledger[..|ledger| - 1], maxAttempts) + Remaining(ledger[|ledger| - 1], maxAttempts)
  }

  /** Time never adds budget, except `maxAttempts` for each new row, and it takes at least one unit
      from every row whose own allowance shrank. */
  lemma {:induction false} BudgetOverTime(a: seq<Row>, b: seq<Row>, maxAttempts: nat)
    requires |a| <= |b|
    requires forall i :: 0 <= i < |a| ==> (a[i].folded ==> b[i].folded) && a[i].attempts <= b[i].attempts
    ensures Budget(b, maxAttempts) <= Budget(a, maxAttempts) + maxAttempts * (|b| - |a|)
    ensures (exists i :: 0 <= i < |a| && Remaining(b[i], maxAttempts) < Remaining(a[i], maxAttempts))
            ==> Budget(b, maxAttempts) < Budget(a, maxAttempts) + maxAttempts * (|b| - |a|)
    decreases |b|
  {
    if |b| > |a| {
      BudgetOverTime(a, b[..|b| - 1], maxAttempts);
      assert maxAttempts * (|b| - |a|) == maxAttempts * (|b| - 1 - |a|) + maxAttempts;
      if i :| 0 <= i < |a| && Remaining(b[i], maxAttempts) < Remaining(a[i], maxAttempts) {
        assert b[..|b| - 1][i] == b[i];
      }
    } else if |b| > 0 {
      var n := |b| - 1;
      BudgetOverTime(a[..n], b[..n], maxAttempts);
      if i :| 0 <= i < |a| && Remaining(b[i], maxAttempts) < Remaining(a[i], maxAttempts) && i < n {
        assert Remaining(b[..n][i], maxAttempts) < Remaining(a[..n][i], maxAttempts);
      }
    }
  }

  lemma {:induction false} LaterSpends(a: seq<Row>, b: seq<Row>, id: nat, maxAttempts: nat)
    requires Later(a, b) && id < |a| && Remaining(b[id], maxAttempts) < Remaining(a[id], maxAttempts)
    ensures Budget(b, maxAttempts) < Budget(a, maxAttempts) + maxAttempts * (|b| - |a|)
  {
    hide Budget, Remaining;
    BudgetOverTime(a, b, maxAttempts);
  }

  lemma LaterIsTransitive(a: seq<Row>, b: seq<Row>, c: seq<Row>, id: nat)
    requires Later(a, b) && Later(b, c) && id < |a|
    ensures Later(a, c)
    ensures a[id].attempts <= b[id].attempts && (b[id].folded ==> c[id].folded)
  {
  }

  lemma FirstClaimed(ledger: seq<Row>, tenant: string, limit: nat, maxAttempts: nat)
    ensures var ids := Claim(ledger, 0, tenant, limit, Some(maxAttempts));
      ids != [] ==> ids[0] < |ledger| && Remaining(ledger[ids[0]], maxAttempts) > 0
  {
    ClaimIsOldest(ledger, 0, tenant, limit, Some(maxAttempts));
    var ids := Claim(ledger, 0, tenant, limit, Some(maxAttempts));
    assert ids != [] ==> ids[0] in ids;
  }

  /** A request pass that raises has spent budget since it claimed its rows, whoever else ran in
      between: each of its rows has been folded by someone or costs one attempt less. */
  lemma {:induction false} FailingPassSpends(s: System, steps: seq<Step>, w: nat, tenant: string, limit: nat,
                                             maxAttempts: nat)
    requires Invariant(s) && w !in s.workers
    requires var ids := Claim(s.db.ledger, 0, tenant, limit, Some(maxAttempts));
      && ids != []
      && w in Run(s, steps).workers
      && Run(s, steps).workers[w].ids == ids && Run(s, steps).workers[w].mode == Request
      && Run(s, steps).workers[w].next < PROJECTIONS
    ensures Invariant(Run(s, steps))
    ensures var after := Apply(Run(s, steps), Raise(w));
      Budget(after.db.ledger, maxAttempts)
        < Budget(s.db.ledger, maxAttempts) + maxAttempts * (|after.db.ledger| - |s.db.ledger|)
  {
    hide Run, Apply, Sound, WorkerOk, Claim, Budget, Later, InRange;
    var id := Claim(s.db.ledger, 0, tenant, limit, Some(maxAttempts))[0];
    FirstClaimed(s.db.ledger, tenant, limit, maxAttempts);
    RunKeeps(s, steps);
    RunIsLater(s, steps);
    var middle := Run(s, steps);
    StepIsLater(middle, Raise(w));
    var after := Apply(middle, Raise(w));
    LaterIsTransitive(s.db.ledger, middle.db.ledger, after.db.ledger, id);
    RaiseCounts(middle, w);
    LaterSpends(s.db.ledger, after.db.ledger, id, maxAttempts);
  }

  lemma RaiseCounts(s: System, w: nat)
    requires InFlight(s) && w in s.workers && s.workers[w].next < PROJECTIONS && s.workers[w].mode == Request
    ensures Apply(s, Raise(w)).db == RecordAttempts(s.db, s.workers[w].ids)
  {
  }

  // ----- how often the request path can fail -----

  /** Request passes in flight whose oldest claimed row is `id`. */
  function Holding(workers: map<nat, Worker>, id: nat): set<nat> {
    set w | w in workers && workers[w].mode == Request && workers[w].ids != [] && workers[w].ids[0] == id
  }

  /** Request passes of a tenant in flight; a claim holds rows of one tenant. */
  function Requests(s: System, tenant: string): set<nat> {
    set w | w in s.workers && s.workers[w].mode == Request && s.workers[w].ids != []
      && s.workers[w].ids[0] < |s.db.ledger| && s.db.ledger[s.workers[w].ids[0]].tenant == tenant
  }

  predicate RaisesNow(s: System, w: nat) {
    w in s.workers && s.workers[w].next < PROJECTIONS
  }

  ghost predicate AtMost(s: System, k: nat) {
    forall tenant: string :: |Requests(s, tenant)| <= k
  }

  predicate OneBudget(step: Step, maxAttempts: nat) {
    step.BeginRequest? ==> step.maxAttempts == Some(maxAttempts)
  }

  /** At every moment of the run no tenant has more than `k` request passes in flight, and all passes
      use one retry budget.  Sweeps, deaths and other tenants' passes are not restricted. */
  ghost predicate Throughout(s: System, steps: seq<Step>, k: nat, maxAttempts: nat)
    requires Invariant(s)
    decreases |steps|
  {
    if steps == [] then AtMost(s, k)
    else
      StepKeeps(s, steps[0]);
      && AtMost(s, k) && OneBudget(steps[0], maxAttempts)
      && Throughout(Apply(s, steps[0]), steps[1..], k, maxAttempts)
  }

  /** How many failures a row can still be the oldest row of. */
  function Allowance(s: System, id: nat, k: nat, maxAttempts: nat): nat
    requires id < |s.db.ledger| && k > 0
  {
    var left := Remaining(s.db.ledger[id], maxAttempts);
    if left > 0 then left + k - 1 else |Holding(s.workers, id)|
  }

  function Allowances(s: System, n: nat, k: nat, maxAttempts: nat): nat
    requires n <= |s.db.ledger| && k > 0
  {
    if n == 0 then 0 else Allowances(s, n - 1, k, maxAttempts) + Allowance(s, n - 1, k, maxAttempts)
  }

  lemma {:induction false} AllowancesShrink(a: System, b: System, n: nat, k: nat, maxAttempts: nat)
    requires k > 0 && n <= |a.db.ledger| && n <= |b.db.ledger|
    requires forall id | 0 <= id < n :: Allowance(b, id, k, maxAttempts) <= Allowance(a, id, k, maxAttempts)
    ensures Allowances(b, n, k, maxAttempts) <= Allowances(a, n, k, maxAttempts)
    ensures (exists id :: 0 <= id < n && Allowance(b, id, k, maxAttempts) < Allowance(a, id, k, maxAttempts))
            ==> Allowances(b, n, k, maxAttempts) < Allowances(a, n, k, maxAttempts)
  {
    hide Allowance;
    if n > 0 {
      AllowancesShrink(a, b, n - 1, k, maxAttempts);
    }
  }

  /** A row some pass holds as its oldest belongs to the tenant of that pass. */
  lemma HoldingIsBounded(s: System, id: nat, k: nat)
    requires id < |s.db.ledger| && AtMost(s, k)
    ensures |Holding(s.workers, id)| <= k
  {
    SubsetSize(Holding(s.workers, id), Requests(s, s.db.ledger[id].tenant));
  }

  /** Only a claim makes a pass hold a row, and a claimed row has budget left. */
  lemma {:induction false} HoldingShrinks(s: System, step: Step, id: nat, maxAttempts: nat)
    requires Invariant(s) && OneBudget(step, maxAttempts) && id < |s.db.ledger|
    ensures InFlight(s)
    ensures Holding(Apply(s, step).workers, id) <= Holding(s.workers, id)
            || (Apply(s, step).db == s.db && Remaining(s.db.ledger[id], maxAttempts) > 0)
    ensures step.Raise? && step.worker in Holding(s.workers, id) && RaisesNow(s, step.worker)
            ==> Holding(Apply(s, step).workers, id) <= Holding(s.workers, id) - {step.worker}
  {
    hide Sound, MarkFolded, RecordAttempts, Advance, Insert, Claim;
    if step.BeginRequest? {
      ClaimIsOldest(s.db.ledger, 0, step.tenant, step.limit, step.maxAttempts);
    }
  }

  /** No step raises a row's allowance; a raising request pass lowers that of its oldest row. */
  lemma {:induction false} AllowanceShrinks(s: System, step: Step, id: nat, k: nat, maxAttempts: nat)
    requires Invariant(s) && AtMost(s, k) && k > 0 && OneBudget(step, maxAttempts) && id < |s.db.ledger|
    ensures InFlight(s) && id < |Apply(s, step).db.ledger|
    ensures Allowance(Apply(s, step), id, k, maxAttempts) <= Allowance(s, id, k, maxAttempts)
    ensures step.Raise? && step.worker in Holding(s.workers, id) && RaisesNow(s, step.worker)
            ==> Allowance(Apply(s, step), id, k, maxAttempts) < Allowance(s, id, k, maxAttempts)
  {
    hide Apply, Sound, WorkerOk, Holding, AtMost, RecordAttempts;
    StepIsLater(s, step);
    HoldingShrinks(s, step, id, maxAttempts);
    HoldingIsBounded(s, id, k);
    var s' := Apply(s, step);
    if Holding(s'.workers, id) <= Holding(s.workers, id) {
      SubsetSize(Holding(s'.workers, id), Holding(s.workers, id));
    }
    if step.Raise? && step.worker in Holding(s.workers, id) && RaisesNow(s, step.worker) {
      SubsetSize(Holding(s'.workers, id), Holding(s.workers, id) - {step.worker});
      RaiseCosts(s, step.worker, id, maxAttempts);
    }
  }

  lemma RaiseCosts(s: System, w: nat, id: nat, maxAttempts: nat)
    requires InFlight(s) && id < |s.db.ledger| && w in Holding(s.workers, id) && RaisesNow(s, w)
    ensures id < |Apply(s, Raise(w)).db.ledger|
    ensures var before, after := Remaining(s.db.ledger[id], maxAttempts),
                                 Remaining(Apply(s, Raise(w)).db.ledger[id], maxAttempts);
      before > 0 ==> after == before - 1
  {
    RaiseCounts(s, w);
    assert id in s.workers[w].ids;
  }

  lemma FailureIsARaise(s: System, step: Step)
    requires Invariant(s)
    ensures InFlight(s)
    ensures Apply(s, step).failures != s.failures ==>
      && Apply(s, step).failures == s.failures + 1
      && step.Raise? && RaisesNow(s, step.worker) && s.workers[step.worker].mode == Request
      && s.workers[step.worker].ids[0] < |s.db.ledger|
      && step.worker in Holding(s.workers, s.workers[step.worker].ids[0])
  {
    hide Sound, MarkFolded, RecordAttempts, Advance, Insert, Claim;
    if step.Raise? && step.worker in s.workers {
      assert WorkerOk(s.db, s.workers[step.worker]);
    }
  }

  /** Over the rows there were, each failure spends one of what they allow. */
  lemma {:induction false} OldRowsPay(s: System, step: Step, k: nat, maxAttempts: nat)
    requires Invariant(s) && AtMost(s, k) && k > 0 && OneBudget(step, maxAttempts)
    ensures InFlight(s) && |s.db.ledger| <= |Apply(s, step).db.ledger|
    ensures Apply(s, step).failures + Allowances(Apply(s, step), |s.db.ledger|, k, maxAttempts)
              <= s.failures + Allowances(s, |s.db.ledger|, k, maxAttempts)
  {
    hide Apply, Sound, WorkerOk, Holding, AtMost, Allowance, Allowances, Later, Claim, OneBudget;
    StepIsLater(s, step);
    LaterIsLonger(s.db.ledger, Apply(s, step).db.ledger);
    FailureIsARaise(s, step);
    var s', n := Apply(s, step), |s.db.ledger|;
    forall id | 0 <= id < n
      ensures Allowance(s', id, k, maxAttempts) <= Allowance(s, id, k, maxAttempts)
    {
      AllowanceShrinks(s, step, id, k, maxAttempts);
    }
    if s'.failures != s.failures {
      AllowanceShrinks(s, step, s.workers[step.worker].ids[0], k, maxAttempts);
    }
    AllowancesShrink(s, s', n, k, maxAttempts);
  }

  lemma LaterIsLonger(a: seq<Row>, b: seq<Row>)
    requires Later(a, b)
    ensures |a| <= |b|
  {
  }

  /** Each row brings at most the retry budget and one more failure for each further pass in flight. */
  lemma StepPays(s: System, step: Step, k: nat, maxAttempts: nat)
    requires Invariant(s) && AtMost(s, k) && k > 0 && OneBudget(step, maxAttempts)
    ensures InFlight(s)
    ensures var s' := Apply(s, step);
      s'.failures + Allowances(s', |s'.db.ledger|, k, maxAttempts)
        <= s.failures + Allowances(s, |s.db.ledger|, k, maxAttempts)
           + (|s'.db.ledger| - |s.db.ledger|) * (maxAttempts + k - 1)
  {
    hide Apply, Invariant, AtMost, Allowance, Insert, Later, OneBudget;
    StepIsLater(s, step);
    OldRowsPay(s, step, k, maxAttempts);
    if step.Arrive? {
      NewRow(s, step.span, k, maxAttempts);
    }
  }

  lemma NewRow(s: System, span: Span, k: nat, maxAttempts: nat)
    requires Invariant(s) && k > 0
    ensures var s' := s.(db := Insert(s.db, span));
      |s'.db.ledger| > |s.db.ledger| ==>
        && |s'.db.ledger| == |s.db.ledger| + 1
        && Allowance(s', |s.db.ledger|, k, maxAttempts) <= maxAttempts + k - 1
  {
    hide Sound, Known;
    var n := |s.db.ledger|;
    forall w <- s.workers
      ensures w !in Holding(s.workers, n)
    {
      assert WorkerOk(s.db, s.workers[w]);
    }
    assert Holding(s.workers, n) == {};
  }

  /** Over any run: with at most `k` request passes of a tenant in flight at a time, the request path
      fails at most `maxAttempts + k - 1` times for each row stored meanwhile, whatever sweeps, deaths
      and other tenants do in between. */
  lemma {:induction false} RunPays(s: System, steps: seq<Step>, k: nat, maxAttempts: nat)
    requires Invariant(s) && k > 0 && Throughout(s, steps, k, maxAttempts)
    ensures var last := Run(s, steps);
      && |last.db.ledger| >= |s.db.ledger|
      && last.failures + Allowances(last, |last.db.ledger|, k, maxAttempts)
           <= s.failures + Allowances(s, |s.db.ledger|, k, maxAttempts)
              + (|last.db.ledger| - |s.db.ledger|) * (maxAttempts + k - 1)
    decreases |steps|
  {
    hide Apply, Sound, WorkerOk, AtMost, Allowances, OneBudget;
    if steps != [] {
      StepKeeps(s, steps[0]);
      StepIsLater(s, steps[0]);
      StepPays(s, steps[0], k, maxAttempts);
      var s' := Apply(s, steps[0]);
      RunPays(s', steps[1..], k, maxAttempts);
      var last := Run(s', steps[1..]);
      Distribute(|s'.db.ledger| - |s.db.ledger|, |last.db.ledger| - |s'.db.ledger|, maxAttempts + k - 1);
    }
  }

  lemma Distribute(a: int, b: int, c: int)
    ensures (a + b) * c == a * c + b * c
  {
  }

  lemma {:induction false} EventsCount(ledger: seq<Row>)
    ensures |Events(ledger)| == |ledger|
  {
    if ledger != [] {
      EventsCount(ledger[..|ledger| - 1]);
    }
  }

  /** N stored rows make the request path fail at most N times `maxAttempts + k - 1` times, if no
      tenant ever has more than `k` passes in flight; N times `maxAttempts` when passes of one tenant
      do not overlap. */
  lemma FailuresAreBounded(steps: seq<Step>, k: nat, maxAttempts: nat)
    requires Invariant(START) && k > 0 && Throughout(START, steps, k, maxAttempts)
    ensures FromStart(steps).failures <= |Stored(steps)| * (maxAttempts + k - 1)
  {
    hide Throughout, Invariant, Run, FirstOfEach, Arrivals, Allowances;
    assert Allowances(START, 0, k, maxAttempts) == 0 by { NoRows(k, maxAttempts); }
    RunPays(START, steps, k, maxAttempts);
    ExactlyOnceCounting(steps);
    EventsCount(FromStart(steps).db.ledger);
  }

  lemma NoRows(k: nat, maxAttempts: nat)
    requires k > 0
    ensures Allowances(START, 0, k, maxAttempts) == 0
  {
  }

  // ----- the bound is reached -----

  function Range(p: nat, q: nat): set<nat>
    decreases q - p
  {
    if p >= q then {} else Range(p, q - 1) + {q - 1}
  }

  lemma {:induction false} RangeHolds(p: nat, q: nat)
    requires p <= q
    ensures |Range(p, q)| == q - p && forall w :: w in Range(p, q) <==> p <= w < q
    decreases q - p
  {
    if p < q {
      RangeHolds(p, q - 1);
    }
  }

  /** One row that has cost `p` failures, and the passes numbered `p` to `q` holding it. */
  function Storm(span: Span, p: nat, q: nat): System {
    System(Db([Row(span, false, false, p)], map[], {}), map w | w in Range(p, q) :: Worker([0], 0, Request), p)
  }

  /** Keep `k` passes in flight while the row may be claimed, then let them all fail. */
  function Plan(tenant: string, p: nat, q: nat, k: nat, maxAttempts: nat): seq<Step>
    requires p <= q <= p + k && q <= maxAttempts + k - 1
    decreases 2 * (maxAttempts + k) - p - q
  {
    if q < p + k && p < maxAttempts then
      [BeginRequest(q, tenant, 1, Some(maxAttempts))] + Plan(tenant, p, q + 1, k, maxAttempts)
    else if p < q then [Raise(p)] + Plan(tenant, p + 1, q, k, maxAttempts)
    else []
  }

  lemma StormHasFew(span: Span, p: nat, q: nat, k: nat)
    requires p <= q <= p + k
    ensures AtMost(Storm(span, p, q), k)
  {
    RangeHolds(p, q);
    forall tenant: string
      ensures |Requests(Storm(span, p, q), tenant)| <= k
    {
      SubsetSize(Requests(Storm(span, p, q), tenant), Range(p, q));
    }
  }

  lemma StormBegins(span: Span, p: nat, q: nat, maxAttempts: nat)
    requires p <= q && p < maxAttempts && Invariant(Storm(span, p, q))
    ensures InFlight(Storm(span, p, q))
    ensures Apply(Storm(span, p, q), BeginRequest(q, span.tenant, 1, Some(maxAttempts))) == Storm(span, p, q + 1)
  {
    hide Sound, Range;
    RangeHolds(p, q);
    RangeHolds(p, q + 1);
    var row := Row(span, false, false, p);
    assert Claim([row], 1, span.tenant, 0, Some(maxAttempts)) == [];
    assert Claim([row], 0, span.tenant, 1, Some(maxAttempts)) == [0];
  }

  lemma StormRaises(span: Span, p: nat, q: nat)
    requires p < q && Invariant(Storm(span, p, q))
    ensures InFlight(Storm(span, p, q))
    ensures Apply(Storm(span, p, q), Raise(p)) == Storm(span, p + 1, q)
  {
    hide Sound, Range;
    RangeHolds(p, q);
    RangeHolds(p + 1, q);
    assert Storm(span, p, q).workers - {p} == Storm(span, p + 1, q).workers;
  }

  lemma {:induction false} PlanRuns(span: Span, p: nat, q: nat, k: nat, maxAttempts: nat)
    requires p <= q <= p + k && q <= maxAttempts + k - 1 && k > 0
    requires p >= maxAttempts ==> q == maxAttempts + k - 1
    requires Invariant(Storm(span, p, q))
    ensures var steps, end := Plan(span.tenant, p, q, k, maxAttempts), maxAttempts + k - 1;
      && Throughout(Storm(span, p, q), steps, k, maxAttempts)
      && Run(Storm(span, p, q), steps) == Storm(span, end, end)
      && Arrivals(steps) == []
    decreases 2 * (maxAttempts + k) - p - q
  {
    hide Invariant, Apply, AtMost, Storm;
    StormHasFew(span, p, q, k);
    if q < p + k && p < maxAttempts {
      StormBegins(span, p, q, maxAttempts);
      StepKeeps(Storm(span, p, q), BeginRequest(q, span.tenant, 1, Some(maxAttempts)));
      PlanRuns(span, p, q + 1, k, maxAttempts);
      var step, rest := BeginRequest(q, span.tenant, 1, Some(maxAttempts)), Plan(span.tenant, p, q + 1, k, maxAttempts);
      assert ([step] + rest)[1..] == rest;
    } else if p < q {
      StormRaises(span, p, q);
      StepKeeps(Storm(span, p, q), Raise(p));
      PlanRuns(span, p + 1, q, k, maxAttempts);
      var rest := Plan(span.tenant, p + 1, q, k, maxAttempts);
      assert ([Raise(p)] + rest)[1..] == rest;
    }
  }

  /** The bound is the least one: for every budget and every number of passes in flight there is a run
      over a single row that fails exactly so often. */
  lemma BoundIsReached(span: Span, k: nat, maxAttempts: nat)
    requires k > 0 && maxAttempts > 0
    ensures Invariant(START)
    ensures var steps := [Arrive(span)] + Plan(span.tenant, 0, 0, k, maxAttempts);
      && Throughout(START, steps, k, maxAttempts)
      && |Stored(steps)| == 1 && FromStart(steps).failures == maxAttempts + k - 1
  {
    hide Plan, Invariant, AtMost;
    StartIsFine();
    var rest := Plan(span.tenant, 0, 0, k, maxAttempts);
    var steps := [Arrive(span)] + rest;
    assert steps[1..] == rest;
    StepKeeps(START, Arrive(span));
    assert Apply(START, Arrive(span)) == Storm(span, 0, 0) by {
      assert Storm(span, 0, 0).workers == map[];
    }
    PlanRuns(span, 0, 0, k, maxAttempts);
    assert AtMost(START, k) by { StartHasFew(k); }
    assert Arrivals(steps) == [span];
    assert [span][1..] == [];
    NothingDelivered({} + {Key(span)});
    assert Stored(steps) == [span.event] + FirstOfEach({} + {Key(span)}, []);
  }

  lemma StartHasFew(k: nat)
    ensures AtMost(START, k)
  {
    forall tenant: string
      ensures |Requests(START, tenant)| <= k
    {
      assert Requests(START, tenant) == {};
    }
  }

  /** Every run with at most `k` passes of a tenant in flight keeps to N times `maxAttempts` failures. */
  ghost predicate KeepsToBudget(k: nat, maxAttempts: nat)
    requires Invariant(START)
  {
    forall steps | Throughout(START, steps, k, maxAttempts) ::
      FromStart(steps).failures <= |Stored(steps)| * maxAttempts
  }

  /** The documented bound holds of the request path if and only if one tenant's passes never overlap. */
  lemma BudgetNeedsNoOverlap(k: nat, maxAttempts: nat)
    requires k > 0 && maxAttempts > 0
    ensures Invariant(START) && (KeepsToBudget(k, maxAttempts) <==> k == 1)
  {
    hide Invariant, Throughout, FromStart, Stored, Plan;
    StartIsFine();
    if k == 1 {
      forall steps | Throughout(START, steps, k, maxAttempts)
        ensures FromStart(steps).failures <= |Stored(steps)| * maxAttempts
      {
        FailuresAreBounded(steps, k, maxAttempts);
      }
    } else {
      var span := Span("t", "s", SomeEvent());
      var steps := [Arrive(span)] + Plan(span.tenant, 0, 0, k, maxAttempts);
      BoundIsReached(span, k, maxAttempts);
      assert Throughout(START, steps, k, maxAttempts);
    }
  }

  function SomeEvent(): Event {
    Event(ModelCall, "", "", "", "", false, "", "", "", "", "", "", "", 0, 0)
  }
}
