/** The batch fold refines the full recompute: what a run of batches, replays, human decisions and
    lapsing waivers leaves in one control's row, against one pass over the whole history. */
module AssessmentRuns {

  import opened Common
  import opened Samples
  import opened Assessment

  /** The statuses `apply_decision_status` writes; "" is never one of them. */
  predicate IsDecision(status: string) {
    status in {"approved", "rejected", "accepted", "mitigation_required", "waived", "closed"}
  }

  /** What may happen to a control's row. */
  datatype Act = Fold(batch: seq<Event>) | Recompute(ledger: seq<Event>) | Decide(status: string) | LapseWaiver

  predicate Assesses(act: Act) {
    act.Fold? || act.Recompute?
  }

  function Step(row: Option<Row>, act: Act, control: Control): Option<Row> {
    match act
    case Fold(batch) => Some(FoldRow(row, control, batch))
    case Recompute(ledger) => Some(FullRow(row, control, ledger))
    case Decide(status) =>
      if row.Some? && IsDecision(status) then Some(row.value.(status := status)) else row
    case LapseWaiver =>
      if row.Some? && row.value.status == "waived" then Some(row.value.(status := "missing")) else row
  }

  function Replay(acts: seq<Act>, control: Control): Option<Row> {
    if acts == [] then None else Step(Replay(acts[..|acts| - 1], control), acts[|acts| - 1], control)
  }

  /** The events behind a row: those of the last recompute and of every batch since, a replayed batch
      as often as it was folded. */
  function History(acts: seq<Act>): seq<Event> {
    if acts == [] then []
    else
      match acts[|acts| - 1]
      case Fold(batch) => History(acts[..|acts| - 1]) + batch
      case Recompute(ledger) => ledger
      case _ => History(acts[..|acts| - 1])
  }

  predicate Assessed(acts: seq<Act>) {
    exists i :: 0 <= i < |acts| && Assesses(acts[i])
  }

  /** The human decision in force, or "" when there is none. */
  function Standing(acts: seq<Act>): string {
    if acts == [] then ""
    else
      var before, last := acts[..|acts| - 1], acts[|acts| - 1];
      match last
      case Fold(_) => Standing(before)
      case Recompute(_) => Standing(before)
      case Decide(status) => if Assessed(before) && IsDecision(status) then status else Standing(before)
      case LapseWaiver => if Standing(before) == "waived" then "" else Standing(before)
  }

  /** A waiver lapsed, and since then no batch brought evidence and nothing was recomputed. */
  function Lapsed(acts: seq<Act>, control: Control): bool {
    if acts == [] then false
    else
      var before, last := acts[..|acts| - 1], acts[|acts| - 1];
      match last
      case Fold(batch) => Lapsed(before, control) && (Standing(before) != "" || Evidence(batch, control) == [])
      case Recompute(_) => Lapsed(before, control) && Standing(before) != ""
      case Decide(_) => Lapsed(before, control)
      case LapseWaiver => Standing(before) == "waived" || Lapsed(before, control)
  }

  // ----- evidence of a concatenation -----

  lemma {:induction false} EvidenceOfConcat(a: seq<Event>, b: seq<Event>, control: Control)
    ensures Evidence(a + b, control) == Evidence(a, control) + Evidence(b, control)
  {
    hide Qualifies;
    if b == [] {
      assert a + b == a;
    } else {
      assert (a + b)[..|a + b| - 1] == a + b[..|b| - 1];
      EvidenceOfConcat(a, b[..|b| - 1], control);
    }
  }

  lemma TraceIdsOfConcat(a: seq<Event>, b: seq<Event>)
    ensures TraceIds(a + b) == TraceIds(a) + TraceIds(b)
  {
    forall t | t in TraceIds(a) + TraceIds(b)
      ensures t in TraceIds(a + b)
    {
      var e :| (e in a || e in b) && e.traceId != "" && e.traceId == t;
      assert e in a + b;
    }
  }

  /** Evidence and trace ids depend on which events there are, not on order or repetition. */
  lemma {:induction false} EvidenceDependsOnSet(a: seq<Event>, b: seq<Event>, control: Control)
    requires Elements(a) == Elements(b)
    ensures Evidence(a, control) == [] <==> Evidence(b, control) == []
    ensures TraceIds(Evidence(a, control)) == TraceIds(Evidence(b, control))
  {
    hide Evidence, Qualifies;
    var p, q := Evidence(a, control), Evidence(b, control);
    forall e
      ensures e in p <==> e in q
    {
      assert e in a <==> e in Elements(a);
      assert e in b <==> e in Elements(b);
    }
    if p != [] {
      assert p[0] in q;
    }
    if q != [] {
      assert q[0] in p;
    }
  }

  // ----- the row after a run -----

  /** A row read off a history and the decisions about it. */
  function RowFor(standing: string, lapsed: bool, history: seq<Event>, control: Control): Row {
    var evidence := Evidence(history, control);
    Row(if standing != "" then standing else if evidence == [] || lapsed then "missing" else "passing",
        Bottom(TraceIds(evidence), CAP), |evidence|)
  }

  /** The row a run must leave. */
  function Expected(acts: seq<Act>, control: Control): Row {
    RowFor(Standing(acts), Lapsed(acts, control), History(acts), control)
  }

  lemma {:induction false} StandingIsDecision(acts: seq<Act>)
    ensures Standing(acts) == "" || (IsDecision(Standing(acts)) && Assessed(acts))
  {
    if acts != [] {
      var before := acts[..|acts| - 1];
      StandingIsDecision(before);
      if Assessed(before) {
        var i :| 0 <= i < |before| && Assesses(before[i]);
        assert Assesses(acts[i]);
      }
    }
  }

  lemma AssessedStep(acts: seq<Act>)
    requires acts != []
    ensures Assessed(acts) <==> Assessed(acts[..|acts| - 1]) || Assesses(acts[|acts| - 1])
  {
    var before := acts[..|acts| - 1];
    if Assessed(before) {
      var i :| 0 <= i < |before| && Assesses(before[i]);
      assert Assesses(acts[i]);
    }
    if Assessed(acts) && !Assesses(acts[|acts| - 1]) {
      var i :| 0 <= i < |acts| && Assesses(acts[i]);
      assert Assesses(before[i]);
    }
  }

  /** Extending a sampled row by a batch is sampling the longer history. */
  lemma {:induction false} SampleExtends(older: seq<Event>, batch: seq<Event>, control: Control)
    ensures var kept := Bottom(TraceIds(Evidence(older, control)), CAP);
      var merged := Sorted(Elements(kept) + TraceIds(Evidence(batch, control)));
      (if |merged| <= CAP then merged else merged[..CAP])
        == Bottom(TraceIds(Evidence(older + batch, control)), CAP)
  {
    hide Evidence, Less, Sorted, TraceIds;
    EvidenceOfConcat(older, batch, control);
    TraceIdsOfConcat(Evidence(older, control), Evidence(batch, control));
    BottomOfUnion(TraceIds(Evidence(older, control)), TraceIds(Evidence(batch, control)), CAP);
  }

  lemma EmptySample(control: Control)
    ensures Evidence([], control) == [] && TraceIds([]) == {} && Bottom({}, CAP) == []
  {
  }

  lemma FirstFold(batch: seq<Event>, control: Control)
    ensures FoldRow(None, control, batch) == RowFor("", false, batch, control)
  {
    hide Less, Sorted, Qualifies;
    EmptySample(control);
    var evidence := Evidence(batch, control);
    assert Elements<string>([]) + TraceIds(evidence) == TraceIds(evidence);
  }

  lemma NextFold(standing: string, lapsed: bool, earlier: seq<Event>, batch: seq<Event>, control: Control)
    requires standing == "" || IsDecision(standing)
    ensures FoldRow(Some(RowFor(standing, lapsed, earlier, control)), control, batch)
         == RowFor(standing, lapsed && (standing != "" || Evidence(batch, control) == []), earlier + batch, control)
  {
    hide Evidence, TraceIds, Bottom, Sorted, Less;
    EvidenceOfConcat(earlier, batch, control);
    SampleExtends(earlier, batch, control);
    if Evidence(batch, control) == [] {
      assert Evidence(earlier, control) + Evidence(batch, control) == Evidence(earlier, control);
    }
  }

  lemma NextRecompute(row: Option<Row>, standing: string, lapsed: bool, earlier: seq<Event>, ledger: seq<Event>,
                      control: Control)
    requires standing == "" || IsDecision(standing)
    requires if row.Some? then row.value == RowFor(standing, lapsed, earlier, control) else standing == ""
    ensures FullRow(row, control, ledger) == RowFor(standing, lapsed && standing != "", ledger, control)
  {
    hide Evidence, TraceIds, Sorted, Less;
  }

  /** A run that folded or recomputed at least once leaves exactly the expected row. */
  lemma {:induction false} ReplayIsExpected(acts: seq<Act>, control: Control)
    ensures Replay(acts, control) == if Assessed(acts) then Some(Expected(acts, control)) else None
    ensures !Assessed(acts) ==> History(acts) == [] && !Lapsed(acts, control)
  {
    hide Evidence, TraceIds, Bottom, Sorted, Less, Assessed, FoldRow, IsDecision;
    NoneAssessed();
    if acts != [] {
      var before, last := acts[..|acts| - 1], acts[|acts| - 1];
      ReplayIsExpected(before, control);
      AssessedStep(acts);
      StandingIsDecision(before);
      if last.Fold? {
        hide RowFor;
        FirstFold(last.batch, control);
        NextFold(Standing(before), Lapsed(before, control), History(before), last.batch, control);
        assert [] + last.batch == last.batch;
      } else if last.Recompute? {
        hide RowFor, FullRow;
        NextRecompute(Replay(before, control), Standing(before), Lapsed(before, control), History(before), last.ledger,
                      control);
      }
      DecisionsAreNot(Standing(before));
    }
  }

  lemma DecisionsAreNot(status: string)
    ensures !IsDecision("") && !IsDecision("missing") && !IsDecision("passing")
  {
  }

  lemma NoneAssessed()
    ensures !Assessed([])
  {
  }

  // ----- against the full recompute -----

  /** The row `assess_controls` writes over the row the run left, when `ledger` holds the same events
      in any order. */
  function Recomputed(acts: seq<Act>, control: Control, ledger: seq<Event>): Row {
    FullRow(Replay(acts, control), control, ledger)
  }

  /** Incremental refines full.  However the history was split into batches, reordered and replayed,
      a recompute over the raw ledger finds the same evidence sample, keeps every decision, and
      changes the status exactly when a lapsed waiver has left "missing" over existing evidence. */
  lemma {:induction false} IncrementalRefinesFull(acts: seq<Act>, control: Control, ledger: seq<Event>)
    requires Assessed(acts) && Elements(ledger) == Elements(History(acts))
    ensures var row, full := Replay(acts, control), Recomputed(acts, control, ledger);
      && row.Some?
      && full.traceIds == row.value.traceIds
      && (Standing(acts) != "" ==> full.status == row.value.status == Standing(acts))
      && (full.status == row.value.status <==>
          (Standing(acts) != "" || !Lapsed(acts, control) || Evidence(ledger, control) == []))
  {
    hide Evidence, TraceIds, Sorted, Less, Assessed, Standing, Lapsed;
    ReplayIsExpected(acts, control);
    EvidenceDependsOnSet(ledger, History(acts), control);
    StandingIsDecision(acts);
  }

  /** Without decisions, any two ways of folding and recomputing the same events leave the same status
      and sample. */
  lemma BatchingIsIrrelevant(a: seq<Act>, b: seq<Act>, control: Control)
    requires Assessed(a) && Assessed(b) && (forall act <- a + b :: Assesses(act))
    requires Elements(History(a)) == Elements(History(b))
    ensures var p, q := Replay(a, control), Replay(b, control);
      p.Some? && q.Some? && p.value.status == q.value.status && p.value.traceIds == q.value.traceIds
  {
    hide Evidence, TraceIds, Sorted, Less, Assessed, Standing, Lapsed;
    ReplayIsExpected(a, control);
    ReplayIsExpected(b, control);
    EvidenceDependsOnSet(History(a), History(b), control);
    NoDecisions(a, control);
    NoDecisions(b, control);
  }

  lemma {:induction false} NoDecisions(acts: seq<Act>, control: Control)
    requires forall act <- acts :: Assesses(act)
    ensures Standing(acts) == "" && !Lapsed(acts, control)
  {
    if acts != [] {
      assert Assesses(acts[|acts| - 1]);
      NoDecisions(acts[..|acts| - 1], control);
    }
  }

  /** A waiver that lapses is where the two forms part: the run below has evidence on record, yet
      leaves the control "missing" where a recompute says "passing". */
  lemma LapsedWaiverDisagrees(event: Event, control: Control)
    requires Qualifies(event, control)
    ensures var acts := [Fold([event]), Decide("waived"), LapseWaiver, Fold([])];
      && Replay(acts, control).Some? && Replay(acts, control).value.status == "missing"
      && Recomputed(acts, control, [event]).status == "passing"
  {
    hide Bottom, Sorted, TraceIds, Less, Qualifies;
    var a1, a2, a3 := [Fold([event])], [Fold([event]), Decide("waived")], [Fold([event]), Decide("waived"), LapseWaiver];
    var acts := [Fold([event]), Decide("waived"), LapseWaiver, Fold([])];
    assert acts[..3] == a3 && a3[..2] == a2 && a2[..1] == a1 && a1[..0] == [];
    assert Evidence([event], control) == [event] by {
      assert [event][..0] == [];
    }
    assert Replay(a1, control).value.status == "passing";
    assert Replay(a2, control).value.status == "waived";
    assert Replay(a3, control).value.status == "missing";
  }

  // ----- the evidence count -----

  /** Filtering for evidence keeps every qualifying event as often as it occurs. */
  lemma {:induction false} EvidenceKeepsOccurrences(events: seq<Event>, control: Control, e: Event)
    ensures multiset(Evidence(events, control))[e] == if Qualifies(e, control) then multiset(events)[e] else 0
  {
    hide Qualifies;
    if events != [] {
      EvidenceKeepsOccurrences(events[..|events| - 1], control, e);
      assert events == events[..|events| - 1] + [events[|events| - 1]];
    }
  }

  lemma BagSize<T>(a: multiset<T>, b: multiset<T>)
    requires a <= b
    ensures |a| <= |b| && (|a| == |b| <==> a == b)
  {
    assert b == a + (b - a);
  }

  /** When every stored event was folded at least once, the incremental count is never below that of a
      recompute, and it is the same if and only if each qualifying event was folded exactly as often as
      it is stored. */
  lemma CountAgreesExactly(acts: seq<Act>, control: Control, ledger: seq<Event>)
    requires Assessed(acts) && multiset(ledger) <= multiset(History(acts))
    ensures Replay(acts, control).Some?
    ensures var folded, full := Replay(acts, control).value.evidenceCount, Recomputed(acts, control, ledger).evidenceCount;
      && full <= folded
      && (folded == full <==>
          forall e: Event | Qualifies(e, control) :: multiset(History(acts))[e] == multiset(ledger)[e])
  {
    hide Qualifies, Evidence, Assessed, Replay, History;
    ReplayIsExpected(acts, control);
    var p, q := multiset(Evidence(ledger, control)), multiset(Evidence(History(acts), control));
    forall e: Event
      ensures p[e] == if Qualifies(e, control) then multiset(ledger)[e] else 0
      ensures q[e] == if Qualifies(e, control) then multiset(History(acts))[e] else 0
    {
      EvidenceKeepsOccurrences(ledger, control, e);
      EvidenceKeepsOccurrences(History(acts), control, e);
    }
    assert |p| == |Evidence(ledger, control)| && |q| == |Evidence(History(acts), control)|;
    BagSize(p, q);
    if forall e: Event | Qualifies(e, control) :: multiset(History(acts))[e] == multiset(ledger)[e] {
      assert p == q;
    }
  }

  predicate Duplicates<T(==)>(list: seq<T>) {
    exists i, j :: 0 <= i < j < |list| && list[i] == list[j]
  }

  lemma {:induction false} OccursOnce<T>(list: seq<T>, x: T)
    requires !Duplicates(list)
    ensures multiset(list)[x] == if x in list then 1 else 0
  {
    if list != [] {
      var n := |list| - 1;
      OccursOnce(list[..n], x);
      assert list == list[..n] + [list[n]];
    }
  }

  /** The ledger stores no event twice, so there the counts agree if and only if no qualifying event was
      folded twice. */
  lemma CountAgreesWithoutReplay(acts: seq<Act>, control: Control, ledger: seq<Event>)
    requires Assessed(acts) && Elements(ledger) == Elements(History(acts)) && !Duplicates(ledger)
    ensures Replay(acts, control).Some?
    ensures Replay(acts, control).value.evidenceCount == Recomputed(acts, control, ledger).evidenceCount
            <==> forall e: Event | Qualifies(e, control) :: multiset(History(acts))[e] <= 1
  {
    hide Qualifies, Assessed, Replay, Recomputed, Duplicates, History;
    forall e: Event
      ensures multiset(ledger)[e] == if e in History(acts) then 1 else 0
    {
      OccursOnce(ledger, e);
      assert e in ledger <==> e in Elements(ledger);
      assert e in History(acts) <==> e in Elements(History(acts));
    }
    CountAgreesExactly(acts, control, ledger);
  }

  /** Replaying a batch of one qualifying event doubles the count and changes nothing else. */
  lemma ReplayInflatesCount(event: Event, control: Control)
    requires Qualifies(event, control)
    ensures var once, twice := Replay([Fold([event])], control), Replay([Fold([event]), Fold([event])], control);
      once.Some? && twice == Some(once.value.(evidenceCount := 2)) && once.value.evidenceCount == 1
  {
    hide Bottom, Sorted, TraceIds, Lapsed, Standing, Qualifies, Less, Replay;
    var a, b := [Fold([event])], [Fold([event]), Fold([event])];
    assert Assesses(a[0]) && Assesses(b[0]);
    OneEvidence(event, control);
    assert a[..0] == [] && b[..1] == a;
    assert History(a) == [event] && History(b) == [event] + [event];
    EvidenceOfConcat([event], [event], control);
    ReplayIsExpected(a, control);
    ReplayIsExpected(b, control);
    NoDecisions(a, control);
    NoDecisions(b, control);
    assert Elements([event] + [event]) == Elements([event]);
    EvidenceDependsOnSet([event] + [event], [event], control);
  }

  lemma OneEvidence(event: Event, control: Control)
    requires Qualifies(event, control)
    ensures Evidence([event], control) == [event]
  {
    assert [event][..0] == [];
  }

  // ----- other applications' health events -----

  lemma {:induction false} ForeignEvidence(history: seq<Event>, ledger: seq<Event>, foreign: seq<Event>, control: Control)
    requires Elements(ledger) == Elements(history) + Elements(foreign)
    ensures TraceIds(Evidence(ledger, control))
         == TraceIds(Evidence(history, control)) + TraceIds(Evidence(foreign, control))
    ensures Evidence(ledger, control) == [] <==> Evidence(history, control) == [] && Evidence(foreign, control) == []
  {
    hide Evidence, TraceIds;
    assert Elements(history + foreign) == Elements(history) + Elements(foreign);
    EvidenceDependsOnSet(ledger, history + foreign, control);
    EvidenceOfConcat(history, foreign, control);
    TraceIdsOfConcat(Evidence(history, control), Evidence(foreign, control));
  }

  /** A recompute also reads sdk.health events of other applications, which no batch of this one
      carries.  It leaves the status alone if and only if a decision stands, or there is no evidence at
      all, or the application's own evidence already counts; and the sample if and only if every new
      trace id lies above a full sample. */
  lemma ForeignHealthExactly(acts: seq<Act>, control: Control, ledger: seq<Event>, foreign: seq<Event>)
    requires Assessed(acts) && Elements(ledger) == Elements(History(acts)) + Elements(foreign)
    ensures Replay(acts, control).Some?
    ensures var row, full := Replay(acts, control).value, Recomputed(acts, control, ledger);
      && (full.status == row.status <==>
          || Standing(acts) != "" || Evidence(ledger, control) == []
          || (Evidence(History(acts), control) != [] && !Lapsed(acts, control)))
      && (full.traceIds == row.traceIds <==>
          forall t <- TraceIds(Evidence(foreign, control)) - TraceIds(Evidence(History(acts), control)) ::
            Above(t, row.traceIds, CAP))
  {
    hide Evidence, TraceIds, Sorted, Less, Assessed, Standing, Lapsed, Above, History;
    ReplayIsExpected(acts, control);
    StandingIsDecision(acts);
    ForeignEvidence(History(acts), ledger, foreign, control);
    BottomUnchanged(TraceIds(Evidence(History(acts), control)), TraceIds(Evidence(foreign, control)), CAP);
  }

  lemma {:induction false} NoEvidence(events: seq<Event>, control: Control)
    requires forall e <- events :: e.eventType !in control.evidenceTypes
    ensures Evidence(events, control) == []
  {
    if events != [] {
      NoEvidence(events[..|events| - 1], control);
    }
  }

  /** So they never matter to a control that does not list sdk.health as evidence. */
  lemma {:induction false} ForeignHealthIsInvisible(acts: seq<Act>, control: Control, ledger: seq<Event>,
                                                    foreign: seq<Event>)
    requires Assessed(acts) && Elements(ledger) == Elements(History(acts)) + Elements(foreign)
    requires forall e <- foreign :: e.eventType == "sdk.health"
    requires "sdk.health" !in control.evidenceTypes
    ensures var full, own := Recomputed(acts, control, ledger), Recomputed(acts, control, History(acts));
      full.status == own.status && full.traceIds == own.traceIds
  {
    hide TraceIds, Sorted, Less, History;
    NoEvidence(foreign, control);
    NoTraceIds();
    ForeignEvidence(History(acts), ledger, foreign, control);
  }

  lemma NoTraceIds()
    ensures TraceIds([]) == {}
  {
  }

  /** For one that does, a single foreign health event parts the two forms. */
  lemma ForeignHealthDisagrees(health: Event, control: Control)
    requires health.eventType == "sdk.health" && Qualifies(health, control)
    ensures Replay([Fold([])], control).Some? && Replay([Fold([])], control).value.status == "missing"
    ensures Recomputed([Fold([])], control, [health]).status == "passing"
  {
    assert [Fold([])][..0] == [];
    assert health in Evidence([health], control);
  }
}
