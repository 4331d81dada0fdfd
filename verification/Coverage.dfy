/** Evidence coverage of a control (storage/governance_policy.py): the table of evidenced traces that
    batches and recomputes leave behind, and the query that sets it against recent traffic. */
module Coverage {

  import opened Common
  import opened Samples
  import opened Assessment
  import opened AssessmentRuns

  // ----- the evidence table after a run -----

  function EventsOf(act: Act): seq<Event> {
    match act
    case Fold(batch) => batch
    case Recompute(ledger) => ledger
    case _ => []
  }

  /** Every event any act has seen; evidence rows outlive the events behind them. */
  function EverSeen(acts: seq<Act>): seq<Event> {
    if acts == [] then [] else EverSeen(acts[..|acts| - 1]) + EventsOf(acts[|acts| - 1])
  }

  /** The latest evidence time a run leaves for one trace of the control. */
  function SeenAt(acts: seq<Act>, control: Control, traceId: string): string {
    if acts == [] then ""
    else Later(SeenAt(acts[..|acts| - 1], control, traceId),
               LatestTime(Evidence(EventsOf(acts[|acts| - 1]), control), traceId))
  }

  lemma {:induction false} LatestIsMax(events: seq<Event>, traceId: string)
    ensures forall e <- events :: e.traceId == traceId ==> !Less(LatestTime(events, traceId), e.time)
    ensures LatestTime(events, traceId) != ""
            ==> exists e <- events :: e.traceId == traceId && e.time == LatestTime(events, traceId)
  {
    if events != [] {
      var before, last := events[..|events| - 1], events[|events| - 1];
      LatestIsMax(before, traceId);
      LaterIsMax(LatestTime(before, traceId), last.time);
      assert events == before + [last];
      forall e | e in events && e.traceId == traceId
        ensures !Less(LatestTime(events, traceId), e.time)
      {
        var older := LatestTime(before, traceId);
        if e in before && Less(LatestTime(events, traceId), e.time) {
          LessIsStrict(older, last.time);
          if LatestTime(events, traceId) != older {
            LessTransitive(older, last.time, e.time);
          }
        }
      }
    }
  }

  lemma {:induction false} LaterMerges(a: seq<Event>, b: seq<Event>, traceId: string)
    ensures LatestTime(a + b, traceId) == Later(LatestTime(a, traceId), LatestTime(b, traceId))
  {
    if b == [] {
      assert a + b == a;
      LaterIsMax(LatestTime(a, traceId), "");
    } else {
      var n := |b| - 1;
      assert (a + b)[..|a + b| - 1] == a + b[..n];
      LaterMerges(a, b[..n], traceId);
      LaterAssociates(LatestTime(a, traceId), LatestTime(b[..n], traceId), b[n].time);
    }
  }

  lemma LaterAssociates(a: string, b: string, c: string)
    ensures Later(Later(a, b), c) == Later(a, Later(b, c))
  {
    LessIsStrict(a, b);
    LessIsStrict(b, c);
    LessIsStrict(a, c);
    if Less(a, b) && Less(b, c) {
      LessTransitive(a, b, c);
    }
    if Less(b, a) && Less(a, c) {
      LessTransitive(b, a, c);
    }
    if Less(b, c) && Less(c, a) {
      LessTransitive(b, c, a);
    }
    if Less(c, b) && Less(b, a) {
      LessTransitive(c, b, a);
    }
    if Less(a, c) && Less(c, b) {
      LessTransitive(a, c, b);
    }
  }

  lemma {:induction false} SeenIsLatest(acts: seq<Act>, control: Control, traceId: string)
    ensures SeenAt(acts, control, traceId) == LatestTime(Evidence(EverSeen(acts), control), traceId)
  {
    hide Evidence, Later, LatestTime;
    NothingSeen(control, traceId);
    if acts != [] {
      var before, last := acts[..|acts| - 1], acts[|acts| - 1];
      SeenIsLatest(before, control, traceId);
      EvidenceOfConcat(EverSeen(before), EventsOf(last), control);
      LaterMerges(Evidence(EverSeen(before), control), Evidence(EventsOf(last), control), traceId);
    }
  }

  lemma NothingSeen(control: Control, traceId: string)
    ensures LatestTime(Evidence([], control), traceId) == ""
  {
  }

  /** The greatest time is determined by which events there are. */
  lemma LatestDependsOnSet(a: seq<Event>, b: seq<Event>, traceId: string)
    requires Elements(a) == Elements(b)
    ensures LatestTime(a, traceId) == LatestTime(b, traceId)
  {
    forall e
      ensures e in a <==> e in b
    {
      assert e in Elements(a) <==> e in Elements(b);
    }
    LatestIsMax(a, traceId);
    LatestIsMax(b, traceId);
    var p, q := LatestTime(a, traceId), LatestTime(b, traceId);
    LessIsStrict(p, q);
    LaterIsMax(p, q);
    LaterIsMax(q, p);
  }

  /** The table holds, for each trace with timed evidence, the latest time seen so far. */
  ghost predicate TableOf(acts: seq<Act>, control: Control, table: EvidenceTable) {
    forall t: string ::
      && LastSeen(table, (control.id, t)) == (if t != "" then SeenAt(acts, control, t) else "")
      && ((control.id, t) in table <==> t != "" && SeenAt(acts, control, t) != "")
  }

  lemma TableStarts(control: Control)
    ensures TableOf([], control, map[])
  {
  }

  lemma LaterIsSomething(a: string, b: string)
    ensures Later(a, b) != "" <==> a != "" || b != ""
    ensures Later(a, "") == a
  {
  }

  /** `record_control_evidence` on one more batch or recompute keeps the table to the run. */
  lemma RecordingFollowsTheRun(was: EvidenceTable, now: EvidenceTable, acts: seq<Act>, act: Act, control: Control)
    requires TableOf(acts, control, was)
    requires if Assesses(act) then RecordedAt(was, now, control.id, Evidence(EventsOf(act), control)) else now == was
    ensures TableOf(acts + [act], control, now)
  {
    hide Evidence, LatestTime, Later, LastSeen;
    assert (acts + [act])[..|acts|] == acts;
    forall t: string
      ensures LastSeen(now, (control.id, t)) == (if t != "" then SeenAt(acts + [act], control, t) else "")
      ensures (control.id, t) in now <==> t != "" && SeenAt(acts + [act], control, t) != ""
    {
      var older, newer := SeenAt(acts, control, t), LatestTime(Evidence(EventsOf(act), control), t);
      assert LastSeen(was, (control.id, t)) == if t != "" then older else "";
      assert (control.id, t) in was <==> t != "" && older != "";
      LaterIsSomething(older, newer);
      if !Assesses(act) { NothingSeen(control, t); }
    }
  }

  /** The evidence tables of a run, from an empty one on. */
  ghost predicate TablesOf(acts: seq<Act>, control: Control, tables: seq<EvidenceTable>) {
    && |tables| == |acts| + 1 && tables[0] == map[]
    && forall i :: 0 <= i < |acts| ==>
         if Assesses(acts[i]) then RecordedAt(tables[i], tables[i + 1], control.id, Evidence(EventsOf(acts[i]), control))
         else tables[i + 1] == tables[i]
  }

  /** After every act the table holds what the run so far has seen. */
  lemma {:induction false} TablesFollowTheRun(acts: seq<Act>, control: Control, tables: seq<EvidenceTable>, i: nat)
    requires TablesOf(acts, control, tables) && i <= |acts|
    ensures TableOf(acts[..i], control, tables[i])
  {
    hide TableOf, RecordedAt;
    if i == 0 {
      TableStarts(control);
    } else {
      TablesFollowTheRun(acts, control, tables, i - 1);
      RecordingFollowsTheRun(tables[i - 1], tables[i], acts[..i - 1], acts[i - 1], control);
      assert acts[..i] == acts[..i - 1] + [acts[i - 1]];
    }
  }

  /** Coverage rows are replay-safe: after batches folded in any order and any number of times, a
      trace's `last_seen` is the greatest time of its qualifying events in the ledger, and no event
      of the trace is later. */
  lemma {:induction false} CoverageIsReplaySafe(acts: seq<Act>, control: Control, ledger: seq<Event>, traceId: string)
    requires Elements(ledger) == Elements(EverSeen(acts))
    ensures SeenAt(acts, control, traceId) == LatestTime(Evidence(ledger, control), traceId)
    ensures forall e <- ledger :: Qualifies(e, control) && e.traceId == traceId
              ==> !Less(SeenAt(acts, control, traceId), e.time)
  {
    hide Qualifies;
    var p, q := Evidence(ledger, control), Evidence(EverSeen(acts), control);
    SeenIsLatest(acts, control, traceId);
    forall e
      ensures e in Elements(p) <==> e in Elements(q)
    {
      assert e in ledger <==> e in Elements(ledger);
      assert e in EverSeen(acts) <==> e in Elements(EverSeen(acts));
    }
    LatestDependsOnSet(p, q, traceId);
    LatestIsMax(p, traceId);
  }

  /** A trace is evidenced exactly when the ledger holds a qualifying event of it that has a time. */
  lemma EvidencedExactly(acts: seq<Act>, control: Control, ledger: seq<Event>, table: EvidenceTable, traceId: string)
    requires Elements(ledger) == Elements(EverSeen(acts)) && TableOf(acts, control, table)
    ensures (control.id, traceId) in table <==>
      traceId != "" && exists e <- ledger :: Qualifies(e, control) && e.traceId == traceId && e.time != ""
  {
    hide Qualifies, LatestTime, SeenAt;
    CoverageIsReplaySafe(acts, control, ledger, traceId);
    LatestIsMax(Evidence(ledger, control), traceId);
    assert (control.id, traceId) in table <==> traceId != "" && SeenAt(acts, control, traceId) != "";
  }

  // ----- the coverage query -----

  /** A row of sdk_events of the application: the event, and its time as text. */
  datatype Stored = Stored(event: Event, timestamp: string)

  /** `REPLACE(timestamp, 'T', ' ')`. */
  function Spaced(text: string): string {
    seq(|text|, i requires 0 <= i < |text| => if text[i] == 'T' then ' ' else text[i])
  }

  predicate InWindow(row: Stored, types: seq<string>, cutoff: string) {
    row.event.eventType in types && !Less(Spaced(row.timestamp), cutoff)
  }

  /** A row of the join: the trace of the traffic, and of its evidence row where there is one. */
  datatype Pair = Pair(left: string, right: Option<string>)

  /** The evidence table has one row a trace, so the left join yields one pair a traffic row. */
  function LeftJoin(rows: seq<Stored>, types: seq<string>, cutoff: string, id: string, table: EvidenceTable): seq<Pair> {
    if rows == [] then []
    else
      var before, row := LeftJoin(rows[..|rows| - 1], types, cutoff, id, table), rows[|rows| - 1];
      var trace := row.event.traceId;
      if !InWindow(row, types, cutoff) then before
      else before + [Pair(trace, if (id, trace) in table then Some(trace) else None)]
  }

  /** The two `COUNT(DISTINCT ...)` columns count these; a null is not counted. */
  function Lefts(pairs: seq<Pair>): set<string> {
    set p | p in pairs :: p.left
  }

  /** The traces among these that have an evidence row. */
  function Covered(traffic: set<string>, id: string, table: EvidenceTable): set<string> {
    set t | t in traffic && (id, t) in table
  }

  function Rights(pairs: seq<Pair>): set<string> {
    set p | p in pairs && p.right.Some? :: p.right.value
  }

  function Times(table: EvidenceTable, id: string): set<string> {
    set key | key in table && key.0 == id :: table[key]
  }

  function Greatest(times: set<string>): Option<string> {
    if times == {} then None else Some(Sorted(times)[|times| - 1])
  }

  /** `round(100.0 * part / whole, 1)`, in tenths: the nearest tenth, a tie to the even one. */
  function Tenths(part: nat, whole: nat): nat
    requires whole > 0
  {
    var q, r := 1000 * part / whole, 1000 * part % whole;
    if 2 * r > whole || (2 * r == whole && q % 2 == 1) then q + 1 else q
  }

  datatype Report = Report(basis: nat, covered: nat, tenths: Option<nat>, latest: Option<string>, stale: bool)

  /** The event types whose traces a control is measured against. */
  function BasisTypes(basis: string, control: Control): seq<string> {
    if basis != "" then [basis] else control.evidenceTypes
  }

  /** `control_coverage`; `basis` is the control's coverage basis, or "". */
  function ControlCoverage(rows: seq<Stored>, control: Control, basis: string, table: EvidenceTable, cutoff: string,
                           staleBefore: string): Report {
    var pairs := LeftJoin(rows, BasisTypes(basis, control), cutoff, control.id, table);
    var whole, part := |Lefts(pairs)|, |Rights(pairs)|;
    var latest := Greatest(Times(table, control.id));
    Report(whole, part, if whole > 0 then Some(Tenths(part, whole)) else None, latest,
           latest == None || Less(latest.value, staleBefore))
  }

  /** The traces of traffic of the basis types in the window. */
  function Traffic(rows: seq<Stored>, types: seq<string>, cutoff: string): set<string> {
    set row | row in rows && InWindow(row, types, cutoff) :: row.event.traceId
  }

  lemma TrafficGrows(rows: seq<Stored>, row: Stored, types: seq<string>, cutoff: string)
    ensures Traffic(rows + [row], types, cutoff)
         == Traffic(rows, types, cutoff) + if InWindow(row, types, cutoff) then {row.event.traceId} else {}
  {
    hide InWindow;
  }

  lemma PairsGrow(pairs: seq<Pair>, pair: Pair)
    ensures Lefts(pairs + [pair]) == Lefts(pairs) + {pair.left}
    ensures Rights(pairs + [pair]) == Rights(pairs) + if pair.right.Some? then {pair.right.value} else {}
  {
  }

  lemma {:induction false} JoinIsTraffic(rows: seq<Stored>, types: seq<string>, cutoff: string, id: string,
                                         table: EvidenceTable)
    ensures var pairs, traffic := LeftJoin(rows, types, cutoff, id, table), Traffic(rows, types, cutoff);
      Lefts(pairs) == traffic && Rights(pairs) == Covered(traffic, id, table)
  {
    hide InWindow, Traffic, Lefts, Rights;
    if rows == [] {
      NoTraffic(types, cutoff);
    } else {
      var n := |rows| - 1;
      JoinIsTraffic(rows[..n], types, cutoff, id, table);
      assert rows == rows[..n] + [rows[n]];
      var trace := rows[n].event.traceId;
      TrafficGrows(rows[..n], rows[n], types, cutoff);
      PairsGrow(LeftJoin(rows[..n], types, cutoff, id, table),
                Pair(trace, if (id, trace) in table then Some(trace) else None));
    }
  }

  lemma NoTraffic(types: seq<string>, cutoff: string)
    ensures Traffic([], types, cutoff) == {} && Lefts([]) == {} && Rights([]) == {}
  {
  }

  /** `tenths` is as near to the percentage as a tenth can be. */
  predicate Nearest(tenths: nat, part: nat, whole: nat) {
    2 * (tenths * whole) <= 2000 * part + whole && 2000 * part <= 2 * (tenths * whole) + whole
  }

  lemma Products(q: nat, bound: nat, whole: nat)
    ensures q <= bound ==> q * whole <= bound * whole
    ensures q >= bound ==> q * whole >= bound * whole
  {
  }

  /** The nearest tenth, and when it reads as nothing or as everything. */
  lemma TenthsAreNearest(part: nat, whole: nat)
    requires part <= whole && whole > 0
    ensures var tenths := Tenths(part, whole);
      && Nearest(tenths, part, whole) && tenths <= 1000
      && (tenths == 1000 <==> 2000 * part >= 1999 * whole)
      && (tenths == 0 <==> 2000 * part <= whole)
  {
    var x := 1000 * part;
    var q, r := x / whole, x % whole;
    assert x == q * whole + r;
    assert Tenths(part, whole) * whole == q * whole + if Tenths(part, whole) == q + 1 then whole else 0;
    Products(q, 998, whole);
    Products(q, 999, whole);
    Products(q, 1000, whole);
    Products(q, 1001, whole);
    Products(q, 1, whole);
    Products(q, 0, whole);
  }

  /** What the report says of traffic and evidence.  The percentage is missing exactly when no traffic
      of the basis types lies in the window; covered traces are the basis traces with an evidence row;
      100.0 is read from 1999 of 2000 upwards, so below 2000 traces it means every trace. */
  lemma CoverageIsAShare(rows: seq<Stored>, control: Control, basis: string, table: EvidenceTable, cutoff: string,
                         staleBefore: string)
    ensures var report := ControlCoverage(rows, control, basis, table, cutoff, staleBefore);
      var traffic := Traffic(rows, BasisTypes(basis, control), cutoff);
      var covered := Covered(traffic, control.id, table);
      && report.basis == |traffic| && report.covered == |covered| <= report.basis
      && (report.tenths == None <==> forall row <- rows :: !InWindow(row, BasisTypes(basis, control), cutoff))
      && (report.tenths.Some? ==>
            && Nearest(report.tenths.value, report.covered, report.basis) && report.tenths.value <= 1000
            && (report.tenths.value == 1000 <==> 2000 * report.covered >= 1999 * report.basis)
            && (report.basis < 2000 ==> (report.tenths.value == 1000 <==> covered == traffic)))
  {
    hide InWindow, Tenths, Greatest, Times, LeftJoin, Traffic, Covered, Nearest, Lefts, Rights;
    var types := BasisTypes(basis, control);
    var traffic := Traffic(rows, types, cutoff);
    JoinIsTraffic(rows, types, cutoff, control.id, table);
    ShareOfTraffic(traffic, control.id, table);
    NoTrafficIsNoRow(rows, types, cutoff);
  }

  lemma NoTrafficIsNoRow(rows: seq<Stored>, types: seq<string>, cutoff: string)
    ensures |Traffic(rows, types, cutoff)| == 0 <==> forall row <- rows :: !InWindow(row, types, cutoff)
  {
    hide InWindow;
    var traffic := Traffic(rows, types, cutoff);
    if traffic == {} {
      forall row <- rows
        ensures !InWindow(row, types, cutoff)
      {
        assert InWindow(row, types, cutoff) ==> row.event.traceId in traffic;
      }
    } else {
      assert |traffic| > 0;
      var t :| t in traffic;
    }
  }

  lemma ShareOfTraffic(traffic: set<string>, id: string, table: EvidenceTable)
    ensures var part, whole := |Covered(traffic, id, table)|, |traffic|;
      && part <= whole
      && (whole > 0 ==>
            && Nearest(Tenths(part, whole), part, whole) && Tenths(part, whole) <= 1000
            && (Tenths(part, whole) == 1000 <==> 2000 * part >= 1999 * whole)
            && (whole < 2000 ==> (Tenths(part, whole) == 1000 <==> Covered(traffic, id, table) == traffic)))
  {
    hide Tenths, Nearest;
    SubsetSize(Covered(traffic, id, table), traffic);
    if |traffic| > 0 {
      TenthsAreNearest(|Covered(traffic, id, table)|, |traffic|);
    }
  }

  lemma {:induction false} SameEvidenceSameRows(a: seq<Act>, b: seq<Act>, control: Control, p: EvidenceTable,
                                                q: EvidenceTable, t: string)
    requires Elements(EverSeen(a)) == Elements(EverSeen(b)) && TableOf(a, control, p) && TableOf(b, control, q)
    ensures (control.id, t) in p <==> (control.id, t) in q
    ensures (control.id, t) in p ==> p[(control.id, t)] == q[(control.id, t)]
  {
    hide SeenAt, LatestTime, EverSeen, Evidence;
    CoverageIsReplaySafe(a, control, EverSeen(b), t);
    CoverageIsReplaySafe(b, control, EverSeen(b), t);
    assert LastSeen(p, (control.id, t)) == LastSeen(q, (control.id, t));
    assert (control.id, t) in p <==> t != "" && SeenAt(a, control, t) != "";
    assert (control.id, t) in q <==> t != "" && SeenAt(b, control, t) != "";
  }

  /** Two runs over the same events, split, reordered and repeated as they may be, report the same
      coverage and freshness on any traffic. */
  lemma ReportIsReplaySafe(a: seq<Act>, b: seq<Act>, control: Control, p: EvidenceTable, q: EvidenceTable,
                           rows: seq<Stored>, basis: string, cutoff: string, staleBefore: string)
    requires Elements(EverSeen(a)) == Elements(EverSeen(b)) && TableOf(a, control, p) && TableOf(b, control, q)
    ensures ControlCoverage(rows, control, basis, p, cutoff, staleBefore)
         == ControlCoverage(rows, control, basis, q, cutoff, staleBefore)
  {
    hide Tenths, Greatest, Times, LeftJoin, Traffic, TableOf, Less, EverSeen;
    forall t: string
      ensures (control.id, t) in p <==> (control.id, t) in q
      ensures (control.id, t) in p ==> p[(control.id, t)] == q[(control.id, t)]
    {
      SameEvidenceSameRows(a, b, control, p, q, t);
    }
    var types := BasisTypes(basis, control);
    JoinIsTraffic(rows, types, cutoff, control.id, p);
    JoinIsTraffic(rows, types, cutoff, control.id, q);
    assert Covered(Traffic(rows, types, cutoff), control.id, p) == Covered(Traffic(rows, types, cutoff), control.id, q);
    SameTimes(p, q, control.id);
    SameTimes(q, p, control.id);
    assert Times(p, control.id) == Times(q, control.id);
  }

  lemma SameTimes(p: EvidenceTable, q: EvidenceTable, id: string)
    requires forall t: string :: (id, t) in p ==> (id, t) in q && p[(id, t)] == q[(id, t)]
    ensures Times(p, id) <= Times(q, id)
  {
    forall time | time in Times(p, id)
      ensures time in Times(q, id)
    {
      var key :| key in p && key.0 == id && p[key] == time;
      assert key == (id, key.1) && key in q;
    }
  }

  lemma GreatestIsGreatest(times: set<string>)
    requires times != {}
    ensures Greatest(times).Some? && Greatest(times).value in times
    ensures forall time <- times :: !Less(Greatest(times).value, time)
  {
    var q := Sorted(times);
    assert |times| > 0 && q[|q| - 1] in Elements(q);
    forall time <- times
      ensures !Less(q[|q| - 1], time)
    {
      assert time in Elements(q);
      var i :| 0 <= i < |q| && q[i] == time;
      LessIsStrict(time, q[|q| - 1]);
    }
  }

  /** The report's freshness: the greatest time of any qualifying event with a trace, missing exactly
      when there is none. */
  lemma {:induction false} LatestIsTrue(acts: seq<Act>, control: Control, ledger: seq<Event>, table: EvidenceTable)
    requires Elements(ledger) == Elements(EverSeen(acts)) && TableOf(acts, control, table)
    ensures var latest := Greatest(Times(table, control.id));
      && (latest == None <==>
            forall e <- ledger :: Qualifies(e, control) && e.traceId != "" ==> e.time == "")
      && (latest.Some? ==>
            && (exists e <- ledger :: Qualifies(e, control) && e.traceId != "" && e.time == latest.value)
            && forall e <- ledger :: Qualifies(e, control) && e.traceId != "" ==> !Less(latest.value, e.time))
  {
    hide Qualifies, SeenAt, LatestTime, Sorted;
    var times := Times(table, control.id);
    forall e | e in ledger && Qualifies(e, control) && e.traceId != "" && e.time != ""
      ensures (control.id, e.traceId) in table && table[(control.id, e.traceId)] in times
      ensures !Less(table[(control.id, e.traceId)], e.time)
    {
      EvidencedExactly(acts, control, ledger, table, e.traceId);
      CoverageIsReplaySafe(acts, control, ledger, e.traceId);
      assert LastSeen(table, (control.id, e.traceId)) == SeenAt(acts, control, e.traceId);
    }
    if times != {} {
      GreatestIsGreatest(times);
      var latest := Greatest(times).value;
      var key :| key in table && key.0 == control.id && table[key] == latest;
      TimeIsOfAnEvent(acts, control, ledger, table, key.1);
      forall e | e in ledger && Qualifies(e, control) && e.traceId != ""
        ensures !Less(latest, e.time)
      {
        if e.time != "" && Less(latest, e.time) {
          var seen := table[(control.id, e.traceId)];
          assert seen in times;
          LessIsStrict(seen, e.time);
          LessIsStrict(latest, seen);
          if Less(seen, latest) { LessTransitive(seen, latest, e.time); }
        }
      }
    }
  }

  /** The report is stale exactly when no qualifying event with a trace is as recent as the limit. */
  lemma StaleIsTrue(acts: seq<Act>, control: Control, ledger: seq<Event>, table: EvidenceTable, rows: seq<Stored>,
                    basis: string, cutoff: string, staleBefore: string)
    requires Elements(ledger) == Elements(EverSeen(acts)) && TableOf(acts, control, table)
    ensures ControlCoverage(rows, control, basis, table, cutoff, staleBefore).stale <==>
      forall e <- ledger :: Qualifies(e, control) && e.traceId != "" && e.time != "" ==> Less(e.time, staleBefore)
  {
    hide Qualifies, Sorted, LeftJoin, Tenths, TableOf, Times, Greatest;
    LatestIsTrue(acts, control, ledger, table);
    var latest := Greatest(Times(table, control.id));
    if latest.Some? {
      NoEmptyTime(acts, control, table);
      forall e | e in ledger && Qualifies(e, control) && e.traceId != "" && e.time != "" && Less(latest.value, staleBefore)
        ensures Less(e.time, staleBefore)
      {
        LessIsStrict(e.time, latest.value);
        if Less(e.time, latest.value) { LessTransitive(e.time, latest.value, staleBefore); }
      }
    }
  }

  lemma NoEmptyTime(acts: seq<Act>, control: Control, table: EvidenceTable)
    requires TableOf(acts, control, table)
    ensures Greatest(Times(table, control.id)) != Some("")
  {
    hide SeenAt;
    var times := Times(table, control.id);
    if times != {} {
      GreatestIsGreatest(times);
      var key :| key in table && key.0 == control.id && table[key] == Greatest(times).value;
      assert key == (control.id, key.1) && LastSeen(table, (control.id, key.1)) == table[key];
    }
  }

  lemma TimeIsOfAnEvent(acts: seq<Act>, control: Control, ledger: seq<Event>, table: EvidenceTable, traceId: string)
    requires Elements(ledger) == Elements(EverSeen(acts)) && TableOf(acts, control, table)
    requires (control.id, traceId) in table
    ensures exists e <- ledger ::
              Qualifies(e, control) && e.traceId == traceId != "" && e.time == table[(control.id, traceId)] != ""
  {
    hide Qualifies, SeenAt, LatestTime;
    CoverageIsReplaySafe(acts, control, ledger, traceId);
    LatestIsMax(Evidence(ledger, control), traceId);
    assert LastSeen(table, (control.id, traceId)) == SeenAt(acts, control, traceId);
    assert (control.id, traceId) in table <==> traceId != "" && SeenAt(acts, control, traceId) != "";
  }

  // ----- a full percentage that is not full -----

  function Name(i: nat): (name: string)
    ensures |name| == i
  {
    seq(i, _ => 'a')
  }

  function Call(i: nat): Stored {
    Stored(Event("model.call", Name(i), "1", map[]), "1")
  }

  function Calls(n: nat): seq<Stored> {
    if n == 0 then [] else Calls(n - 1) + [Call(n)]
  }

  function Evidenced(n: nat): EvidenceTable {
    if n == 0 then map[] else Evidenced(n - 1)[("c", Name(n)) := "1"]
  }

  const CALLS := Control("c", ["model.call"], [])

  lemma NextCall(n: nat)
    requires n > 0
    ensures Traffic(Calls(n), ["model.call"], "") == Traffic(Calls(n - 1), ["model.call"], "") + {Name(n)}
  {
    hide Traffic, Name;
    assert InWindow(Call(n), ["model.call"], "");
    TrafficGrows(Calls(n - 1), Call(n), ["model.call"], "");
  }

  lemma {:induction false} CallsHave(n: nat, t: string)
    ensures t in Traffic(Calls(n), ["model.call"], "") <==> 1 <= |t| <= n && t == Name(|t|)
  {
    hide Traffic, Name, Calls;
    if n > 0 {
      NextCall(n);
      CallsHave(n - 1, t);
    } else {
      assert Calls(0) == [] by { NoCalls(); }
      NoTraffic(["model.call"], "");
    }
  }

  lemma NoCalls()
    ensures Calls(0) == []
  {
  }

  lemma {:induction false} CallsAreTraffic(n: nat)
    ensures |Traffic(Calls(n), ["model.call"], "")| == n
  {
    hide Traffic, Name, Calls;
    if n > 0 {
      NextCall(n);
      CallsAreTraffic(n - 1);
      CallsHave(n - 1, Name(n));
    } else {
      NoCalls();
      NoTraffic(["model.call"], "");
    }
  }

  lemma {:induction false} EvidencedNames(n: nat, t: string)
    ensures ("c", t) in Evidenced(n) <==> 1 <= |t| <= n && t == Name(|t|)
  {
    hide Name;
    if n > 0 {
      EvidencedNames(n - 1, t);
    }
  }

  lemma AllButOne(n: nat)
    requires n > 0
    ensures var traffic := Traffic(Calls(n), ["model.call"], "");
      |traffic| == n && |Covered(traffic, "c", Evidenced(n - 1))| == n - 1
  {
    hide Traffic, Calls, Evidenced, Name;
    var traffic := Traffic(Calls(n), ["model.call"], "");
    var covered := Covered(traffic, "c", Evidenced(n - 1));
    CallsAreTraffic(n);
    forall t: string
      ensures t in covered <==> t in traffic && t != Name(n)
    {
      EvidencedNames(n - 1, t);
      CallsHave(n, t);
    }
    CallsHave(n, Name(n));
    assert traffic == covered + {Name(n)};
  }

  /** With 2001 traces, all but one covered, the report reads 100.0. */
  lemma FullReadingMissesATrace()
    ensures var report := ControlCoverage(Calls(2001), CALLS, "", Evidenced(2000), "", "");
      report.basis == 2001 && report.covered == 2000 && report.tenths == Some(1000)
  {
    hide Traffic, Calls, Evidenced, LeftJoin, Greatest, Times, Covered, Lefts, Rights;
    AllButOne(2001);
    JoinIsTraffic(Calls(2001), ["model.call"], "", "c", Evidenced(2000));
  }
}
