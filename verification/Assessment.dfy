/** Control assessment (storage/governance_policy.py): the batch fold on the request path, the full
    recompute it replaces, and the per-trace evidence rows, for one application. */
module Assessment {

  import opened Common
  import opened Samples

  /** A field of an event as `event_satisfies_required_fields` sees it. */
  datatype Field = Null | Text(text: string) | List(length: nat) | Scalar

  /** `fields` holds the values that function reads, by name; `time` is the normalized event time;
      a missing trace id or time is "". */
  datatype Event = Event(eventType: string, traceId: string, time: string, fields: map<string, Field>)

  datatype Control = Control(id: string, evidenceTypes: seq<string>, requiredFields: seq<string>)

  /** A stored control_assessments row, less the columns copied from the control. */
  datatype Row = Row(status: string, traceIds: seq<string>, evidenceCount: nat)

  const CAP: nat := 200

  predicate Present(event: Event, name: string) {
    name in event.fields
    && event.fields[name] != Null && event.fields[name] != Text("") && event.fields[name] != List(0)
  }

  predicate Qualifies(event: Event, control: Control) {
    event.eventType in control.evidenceTypes
    && forall name <- control.requiredFields :: Present(event, name)
  }

  function Evidence(events: seq<Event>, control: Control): (evidence: seq<Event>)
    ensures forall e :: e in evidence <==> e in events && Qualifies(e, control)
  {
    if events == [] then []
    else
      var before := Evidence(events[..|events| - 1], control);
      var last := events[|events| - 1];
      assert events == events[..|events| - 1] + [last];
      if Qualifies(last, control) then before + [last] else before
  }

  /** What counts: an event of an evidence type of the control whose required fields are all there, and not
      null, an empty text or an empty list. */
  lemma EvidenceIsExact(events: seq<Event>, control: Control, e: Event)
    ensures e in Evidence(events, control) <==>
      && e in events && e.eventType in control.evidenceTypes
      && forall name <- control.requiredFields ::
           && name in e.fields
           && match e.fields[name]
              case Null => false
              case Text(text) => |text| > 0
              case List(length) => length > 0
              case Scalar => true
  {
  }

  function TraceIds(events: seq<Event>): set<string> {
    set e | e in events && e.traceId != "" :: e.traceId
  }

  // ----- one control's row -----

  /** A status outside the recomputed ones was set by a person and is kept. */
  function PreserveDecided(existing: Option<Row>, computed: string): string {
    if existing.Some? && existing.value.status != "" && existing.value.status !in {"passing", "missing"}
    then existing.value.status
    else computed
  }

  function Written(existing: Option<Row>, computed: string, traceIds: seq<string>, count: nat): Row {
    Row(PreserveDecided(existing, computed), if |traceIds| <= CAP then traceIds else traceIds[..CAP], count)
  }

  /** What `assess_controls` leaves in the control's row. */
  function FullRow(existing: Option<Row>, control: Control, events: seq<Event>): Row {
    var evidence := Evidence(events, control);
    Written(existing, if evidence != [] then "passing" else "missing", Sorted(TraceIds(evidence)), |evidence|)
  }

  /** What `_fold_controls` leaves in the control's row. */
  function FoldRow(existing: Option<Row>, control: Control, batch: seq<Event>): Row {
    var evidence := Evidence(batch, control);
    if evidence == [] then
      if existing.None? then Written(None, "missing", [], 0) else existing.value
    else
      var prior := if existing.Some? then existing.value.traceIds else [];
      var count := if existing.Some? then existing.value.evidenceCount else 0;
      Written(existing, "passing", Sorted(Elements(prior) + TraceIds(evidence)), count + |evidence|)
  }

  // ----- evidence rows -----

  function Later(a: string, b: string): string {
    if Less(a, b) then b else a
  }

  /** The latest time at which the events carry the trace, or "". */
  function LatestTime(events: seq<Event>, traceId: string): string {
    if events == [] then ""
    else
      var before := LatestTime(events[..|events| - 1], traceId);
      var last := events[|events| - 1];
      if last.traceId == traceId then Later(before, last.time) else before
  }

  type EvidenceTable = map<(string, string), string>

  function LastSeen(table: EvidenceTable, key: (string, string)): string {
    if key in table then table[key] else ""
  }

  /** A control's rows after `record_control_evidence`: each trace moves to its latest time, and a row
      is created only for a trace with a nonempty time. */
  ghost predicate RecordedAt(was: EvidenceTable, now: EvidenceTable, id: string, evidence: seq<Event>) {
    forall t: string ::
      && LastSeen(now, (id, t)) == (if t != "" then Later(LastSeen(was, (id, t)), LatestTime(evidence, t))
                                    else LastSeen(was, (id, t)))
      && ((id, t) in now <==> (id, t) in was || (t != "" && LatestTime(evidence, t) != ""))
  }

  ghost predicate Untouched(was: EvidenceTable, now: EvidenceTable, id: string) {
    forall t: string :: LastSeen(now, (id, t)) == LastSeen(was, (id, t)) && ((id, t) in now <==> (id, t) in was)
  }

  ghost predicate Recorded(was: EvidenceTable, now: EvidenceTable, control: Control, evidence: seq<Event>) {
    RecordedAt(was, now, control.id, evidence) && forall id :: id != control.id ==> Untouched(was, now, id)
  }

  lemma RecordedFrame(a: EvidenceTable, b: EvidenceTable, c: EvidenceTable, id: string, evidence: seq<Event>)
    requires Untouched(b, c, id)
    ensures RecordedAt(a, b, id, evidence) ==> RecordedAt(a, c, id, evidence)
    ensures Untouched(a, b, id) ==> Untouched(a, c, id)
  {
    forall t: string
      ensures LastSeen(b, (id, t)) == LastSeen(c, (id, t)) && ((id, t) in b <==> (id, t) in c)
    {
    }
  }

  lemma RecordedAfterUntouched(a: EvidenceTable, b: EvidenceTable, c: EvidenceTable, id: string, evidence: seq<Event>)
    requires Untouched(a, b, id) && RecordedAt(b, c, id, evidence)
    ensures RecordedAt(a, c, id, evidence)
  {
    forall t: string
      ensures LastSeen(b, (id, t)) == LastSeen(a, (id, t)) && ((id, t) in b <==> (id, t) in a)
    {
    }
  }

  lemma Unrecorded(table: EvidenceTable)
    ensures forall id :: Untouched(table, table, id)
  {
  }

  ghost predicate DistinctIds(controls: seq<Control>) {
    forall i, j :: 0 <= i < j < |controls| ==> controls[i].id != controls[j].id
  }

  /** The two tables, for one application. */
  class Store {
    var rows: map<string, Row>
    var lastSeen: EvidenceTable

    constructor ()
      ensures rows == map[] && lastSeen == map[]
    {
      rows, lastSeen := map[], map[];
    }

    function Existing(id: string): Option<Row>
      reads this
    {
      if id in rows then Some(rows[id]) else None
    }

    /** `_write_assessment`. */
    method WriteAssessment(id: string, computed: string, traceIds: seq<string>, count: nat)
      modifies this`rows
      ensures rows == old(rows)[id := Written(old(Existing(id)), computed, traceIds, count)]
    {
      var status := computed;
      if id in rows && rows[id].status != "" && rows[id].status !in {"passing", "missing"} {
        status := rows[id].status;
      }
      rows := rows[id := Row(status, if |traceIds| <= CAP then traceIds else traceIds[..CAP], count)];
    }

    /** `record_control_evidence`: a local latest time per trace, then one upsert per trace. */
    method RecordControlEvidence(control: Control, evidence: seq<Event>)
      modifies this`lastSeen
      ensures Recorded(old(lastSeen), lastSeen, control, evidence)
    {
      var latest: map<string, string> := map[];
      var i := 0;
      while i < |evidence|
        invariant 0 <= i <= |evidence| && lastSeen == old(lastSeen)
        invariant forall t :: (t in latest <==> t != "" && LatestTime(evidence[..i], t) != "")
        invariant forall t <- latest :: latest[t] == LatestTime(evidence[..i], t)
      {
        assert evidence[..i + 1][..i] == evidence[..i];
        var traceId, seen := evidence[i].traceId, evidence[i].time;
        LaterIsMax("", seen);
        if traceId != "" && Less(if traceId in latest then latest[traceId] else "", seen) {
          latest := latest[traceId := seen];
        }
        i := i + 1;
      }
      assert evidence[..i] == evidence;
      UpsertLatest(control, latest);
      forall t: string
        ensures LastSeen(lastSeen, (control.id, t)) ==
          (if t != "" then Later(LastSeen(old(lastSeen), (control.id, t)), LatestTime(evidence, t))
           else LastSeen(old(lastSeen), (control.id, t)))
      {
        LaterIsMax(LastSeen(old(lastSeen), (control.id, t)), "");
      }
    }

    /** The upserts of `record_control_evidence`: a stored time only ever moves forward. */
    method UpsertLatest(control: Control, latest: map<string, string>)
      requires forall t <- latest :: latest[t] != ""
      modifies this`lastSeen
      ensures forall key: (string, string) ::
        LastSeen(lastSeen, key) == (if key.0 == control.id && key.1 in latest
                                    then Later(LastSeen(old(lastSeen), key), latest[key.1])
                                    else LastSeen(old(lastSeen), key))
      ensures forall key: (string, string) ::
        key in lastSeen <==> key in old(lastSeen) || (key.0 == control.id && key.1 in latest)
    {
      hide Less;
      var pending := latest.Keys;
      while pending != {}
        invariant pending <= latest.Keys
        invariant forall key: (string, string) :: key in lastSeen <==>
          key in old(lastSeen) || (key.0 == control.id && key.1 in latest && key.1 !in pending)
        invariant forall key: (string, string) ::
          LastSeen(lastSeen, key) == (if key.0 == control.id && key.1 in latest && key.1 !in pending
                                      then Later(LastSeen(old(lastSeen), key), latest[key.1])
                                      else LastSeen(old(lastSeen), key))
        decreases |pending|
      {
        var traceId :| traceId in pending;
        var key := (control.id, traceId);
        LaterIsMax(latest[traceId], "");
        ghost var stored := LastSeen(lastSeen, key);
        if key !in lastSeen || Less(lastSeen[key], latest[traceId]) {
          lastSeen := lastSeen[key := latest[traceId]];
        }
        assert LastSeen(lastSeen, key) == Later(stored, latest[traceId]);
        pending := pending - {traceId};
      }
    }

    /** One control of `assess_controls`. */
    method AssessControl(control: Control, events: seq<Event>)
      modifies this
      ensures rows == old(rows)[control.id := FullRow(old(Existing(control.id)), control, events)]
      ensures Recorded(old(lastSeen), lastSeen, control, Evidence(events, control))
    {
      hide Recorded, Evidence, TraceIds, Written, Sorted;
      var evidence := Evidence(events, control);
      RecordControlEvidence(control, evidence);
      assert Existing(control.id) == old(Existing(control.id));
      WriteAssessment(control.id, if evidence != [] then "passing" else "missing", Sorted(TraceIds(evidence)), |evidence|);
    }

    /** `assess_controls`: every control over the whole event history. */
    method AssessControls(controls: seq<Control>, events: seq<Event>)
      requires DistinctIds(controls)
      modifies this
      ensures forall c <- controls :: Existing(c.id) == Some(FullRow(old(Existing(c.id)), c, events))
      ensures forall c <- controls :: RecordedAt(old(lastSeen), lastSeen, c.id, Evidence(events, c))
      ensures forall id :: (forall c <- controls :: c.id != id) ==>
        Existing(id) == old(Existing(id)) && Untouched(old(lastSeen), lastSeen, id)
    {
      hide FullRow, RecordedAt, Untouched, Evidence;
      var i := 0;
      ghost var start := lastSeen;
      Unrecorded(start);
      while i < |controls|
        invariant 0 <= i <= |controls|
        invariant forall j :: 0 <= j < i ==>
          Existing(controls[j].id) == Some(FullRow(old(Existing(controls[j].id)), controls[j], events))
        invariant forall j :: 0 <= j < i ==>
          RecordedAt(start, lastSeen, controls[j].id, Evidence(events, controls[j]))
        invariant forall id :: (forall j :: 0 <= j < i ==> controls[j].id != id) ==> Existing(id) == old(Existing(id))
        invariant forall id :: (forall j :: 0 <= j < i ==> controls[j].id != id) ==> Untouched(start, lastSeen, id)
      {
        ghost var before := lastSeen;
        AssessControl(controls[i], events);
        forall j | 0 <= j < i
          ensures RecordedAt(start, lastSeen, controls[j].id, Evidence(events, controls[j]))
        {
          RecordedFrame(start, before, lastSeen, controls[j].id, Evidence(events, controls[j]));
        }
        forall id | forall j :: 0 <= j < i + 1 ==> controls[j].id != id
          ensures Untouched(start, lastSeen, id)
        {
          assert controls[i].id != id;
          RecordedFrame(start, before, lastSeen, id, []);
        }
        RecordedAfterUntouched(start, before, lastSeen, controls[i].id, Evidence(events, controls[i]));
        i := i + 1;
      }
    }

    /** One control of `_fold_controls`: evidence in the batch marks it passing and extends its
        sample; a batch without evidence writes only a control never assessed before. */
    method FoldControl(control: Control, batch: seq<Event>)
      modifies this
      ensures rows == old(rows)[control.id := FoldRow(old(Existing(control.id)), control, batch)]
      ensures Recorded(old(lastSeen), lastSeen, control, Evidence(batch, control))
    {
      hide Recorded, Evidence, TraceIds, Written, Sorted;
      var evidence := Evidence(batch, control);
      RecordControlEvidence(control, evidence);
      assert Existing(control.id) == old(Existing(control.id));
      var existing := Existing(control.id);
      if evidence == [] {
        if existing == None {
          WriteAssessment(control.id, "missing", [], 0);
        } else {
          assert rows == rows[control.id := existing.value];
        }
      } else {
        var prior := if existing.Some? then existing.value.traceIds else [];
        var count := if existing.Some? then existing.value.evidenceCount else 0;
        WriteAssessment(control.id, "passing", Sorted(Elements(prior) + TraceIds(evidence)), count + |evidence|);
      }
    }

    /** `_fold_controls`: every control over one batch. */
    method FoldControls(controls: seq<Control>, batch: seq<Event>)
      requires DistinctIds(controls)
      modifies this
      ensures forall c <- controls :: Existing(c.id) == Some(FoldRow(old(Existing(c.id)), c, batch))
      ensures forall c <- controls :: RecordedAt(old(lastSeen), lastSeen, c.id, Evidence(batch, c))
      ensures forall id :: (forall c <- controls :: c.id != id) ==>
        Existing(id) == old(Existing(id)) && Untouched(old(lastSeen), lastSeen, id)
    {
      hide FoldRow, RecordedAt, Untouched, Evidence;
      var i := 0;
      ghost var start := lastSeen;
      Unrecorded(start);
      while i < |controls|
        invariant 0 <= i <= |controls|
        invariant forall j :: 0 <= j < i ==>
          Existing(controls[j].id) == Some(FoldRow(old(Existing(controls[j].id)), controls[j], batch))
        invariant forall j :: 0 <= j < i ==>
          RecordedAt(start, lastSeen, controls[j].id, Evidence(batch, controls[j]))
        invariant forall id :: (forall j :: 0 <= j < i ==> controls[j].id != id) ==> Existing(id) == old(Existing(id))
        invariant forall id :: (forall j :: 0 <= j < i ==> controls[j].id != id) ==> Untouched(start, lastSeen, id)
      {
        ghost var before := lastSeen;
        FoldControl(controls[i], batch);
        forall j | 0 <= j < i
          ensures RecordedAt(start, lastSeen, controls[j].id, Evidence(batch, controls[j]))
        {
          RecordedFrame(start, before, lastSeen, controls[j].id, Evidence(batch, controls[j]));
        }
        forall id | forall j :: 0 <= j < i + 1 ==> controls[j].id != id
          ensures Untouched(start, lastSeen, id)
        {
          assert controls[i].id != id;
          RecordedFrame(start, before, lastSeen, id, []);
        }
        RecordedAfterUntouched(start, before, lastSeen, controls[i].id, Evidence(batch, controls[i]));
        i := i + 1;
      }
    }
  }

  lemma LaterIsMax(a: string, b: string)
    ensures Later(a, b) == Later(b, a) && Later(a, a) == a && Later(a, "") == a
    ensures Later(a, b) == a || Later(a, b) == b
    ensures !Less(Later(a, b), a) && !Less(Later(a, b), b)
    ensures Less("", a) <==> a != ""
  {
    LessIsStrict(a, b);
    LessIsStrict(a, a);
    LessIsStrict(b, b);
  }
}
