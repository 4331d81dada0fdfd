/** Deployment approval gates (storage/deployments.py): telemetry refreshes their evidence, people decide
    them, and CI asks whether a release may go out. */
module ReleaseGate {

  import opened Common

  type GateId = string

  /** What `gate_evidence_counts` reads for a version at one moment. */
  datatype Evidence = Evidence(risks: nat, missingControls: nat, undercovered: nat, changes: nat, maxChanges: nat,
                               promptLinked: bool, passingEvals: nat, requireAttested: bool)

  datatype Status = PendingReview | Approved | Rejected

  datatype Part =
    | OpenRisks(n: nat) | MissingControls(n: nat) | Undercovered(n: nat) | MaterialChanges(n: nat)
    | MissingPrompt | MissingEval(attested: bool) | PendingEvidence | ReleaseNotApproved

  datatype Gate = Gate(status: Status, evidence: Evidence, reason: seq<Part>, actor: Option<string>,
                       rationale: Option<string>)

  // ----- eval evidence -----

  /** An eval result's attributes; unreadable ones have none. */
  datatype Attributes = Attributes(passed: bool, attested: bool, artifact: Option<string>, prompt: Option<string>)

  const NOTHING := Attributes(false, false, None, None)

  datatype Version = Version(artifact: Option<string>, prompt: Option<string>)

  /** The eval names this very release: its artifact if it names one, otherwise its prompt version. */
  predicate IsAbout(a: Attributes, v: Version) {
    if a.artifact.Some? then a.artifact == v.artifact else a.prompt.Some? && a.prompt == v.prompt
  }

  predicate Qualifies(row: Option<Attributes>, v: Version, requireAttested: bool) {
    row.Some? && row.value.passed && (requireAttested ==> row.value.attested) && IsAbout(row.value, v)
  }

  /** Which of the first `n` rows count. */
  function Qualifying(rows: seq<Option<Attributes>>, n: nat, v: Version, requireAttested: bool): set<int>
    requires n <= |rows|
  {
    set i | 0 <= i < n && Qualifies(rows[i], v, requireAttested)
  }

  /** `count_passing_eval_evidence`: exactly the rows that passed, are attested where that is required, and
      are about this release. */
  method CountPassing(rows: seq<Option<Attributes>>, v: Version, requireAttested: bool) returns (count: nat)
    ensures count == |PassingEvals(rows, v, requireAttested)|
  {
    count := 0;
    for i := 0 to |rows|
      invariant count == |Qualifying(rows, i, v, requireAttested)|
    {
      OneMoreRow(rows, i, v, requireAttested);
      var attrs := if rows[i].Some? then rows[i].value else NOTHING;
      if !attrs.passed { continue; }
      if requireAttested && !attrs.attested { continue; }
      if attrs.artifact.Some? {
        if v.artifact == None || attrs.artifact != v.artifact { continue; }
      } else if attrs.prompt.Some? {
        if v.prompt == None || attrs.prompt != v.prompt { continue; }
      } else {
        continue;
      }
      count := count + 1;
    }
    assert PassingEvals(rows, v, requireAttested) == Qualifying(rows, |rows|, v, requireAttested);
  }

  /** The rows a release may count on. */
  function PassingEvals(rows: seq<Option<Attributes>>, v: Version, requireAttested: bool): set<int> {
    set i | 0 <= i < |rows| && rows[i].Some? && rows[i].value.passed && (requireAttested ==> rows[i].value.attested)
            && match rows[i].value.artifact
               case Some(digest) => v.artifact == Some(digest)
               case None => v.prompt.Some? && v.prompt == rows[i].value.prompt
  }

  lemma OneMoreRow(rows: seq<Option<Attributes>>, n: nat, v: Version, requireAttested: bool)
    requires n < |rows|
    ensures Qualifying(rows, n + 1, v, requireAttested)
            == Qualifying(rows, n, v, requireAttested) + if Qualifies(rows[n], v, requireAttested) then {n} else {}
  {
  }

  // ----- the three answers -----

  /** The parts of `gate_required_reason`, in order; none means nothing blocks. */
  function RequiredReason(e: Evidence): seq<Part> {
    var p := When([], e.risks > 0, OpenRisks(e.risks));
    var p := When(p, e.missingControls > 0, MissingControls(e.missingControls));
    var p := When(p, e.undercovered > 0, Undercovered(e.undercovered));
    var p := When(p, e.changes > e.maxChanges, MaterialChanges(e.changes));
    var p := When(p, !e.promptLinked, MissingPrompt);
    When(p, e.passingEvals == 0, MissingEval(e.requireAttested))
  }

  /** The first objection of `set_deployment_gate_status` to an approval. */
  function ApprovalFault(e: Evidence): Option<Part> {
    if !e.promptLinked || e.passingEvals == 0 then Some(MissingEval(e.requireAttested))
    else if e.risks > 0 then Some(OpenRisks(e.risks))
    else if e.missingControls > 0 then Some(MissingControls(e.missingControls))
    else if e.undercovered > 0 then Some(Undercovered(e.undercovered))
    else if e.changes > e.maxChanges then Some(MaterialChanges(e.changes))
    else None
  }

  /** The blockers of `find_gate_for_release`, before the decision itself. */
  function CiBlockers(e: Evidence, pending: nat): seq<Part> {
    var p := When([], pending > 0, PendingEvidence);
    var p := When(p, e.risks > 0, OpenRisks(e.risks));
    var p := When(p, e.missingControls > 0, MissingControls(e.missingControls));
    var p := When(p, e.undercovered > 0, Undercovered(e.undercovered));
    var p := When(p, e.changes > e.maxChanges, MaterialChanges(e.changes));
    var p := When(p, !e.promptLinked, MissingPrompt);
    When(p, e.passingEvals == 0, MissingEval(e.requireAttested))
  }

  datatype Eligibility = Eligibility(eligible: bool, blockers: seq<Part>, reason: seq<Part>)

  function Eligible(gate: Gate, e: Evidence, pending: nat): Eligibility {
    var blockers := CiBlockers(e, pending);
    var decision := if gate.status != Approved then [ReleaseNotApproved] else [];
    var reasons := When(decision, pending > 0, PendingEvidence);
    Eligibility(gate.status == Approved && blockers == [], decision + blockers,
                if exists b <- blockers :: b != PendingEvidence then reasons + RequiredReason(e) else reasons)
  }

  /** The reason text, the approval guard and CI agree on every evidence vector: it is clear
      for one of them exactly when it is clear for all. */
  lemma AnswersAgree(e: Evidence)
    ensures RequiredReason(e) == [] <==> ApprovalFault(e) == None
    ensures RequiredReason(e) == [] <==> CiBlockers(e, 0) == []
    ensures RequiredReason(e) == [] <==> Clear(e)
  {
  }

  /** CI reports a release eligible exactly when it is approved, its current evidence is clear and no event
      waits to be folded; otherwise it names a blocker and gives a reason. */
  lemma EligibleExactlyWhenClear(gate: Gate, e: Evidence, pending: nat)
    ensures Eligible(gate, e, pending).eligible
            <==> gate.status == Approved && ApprovalFault(e) == None && pending == 0
    ensures Eligible(gate, e, pending).eligible <==> Eligible(gate, e, pending).blockers == []
    ensures Eligible(gate, e, pending).eligible <==> Eligible(gate, e, pending).reason == []
  {
    AnswersAgree(e);
    CiNamesTheReasons(e, pending);
    hide CiBlockers, RequiredReason, ApprovalFault;
    var first, rest := When([], pending > 0, PendingEvidence), RequiredReason(e);
    ReasonIsNotPending(e);
    if rest != [] {
      assert (first + rest)[|first|] == rest[0];
      assert rest[0] in first + rest && rest[0] in rest;
    }
  }

  lemma WhenAfter(a: seq<Part>, b: seq<Part>, condition: bool, part: Part)
    ensures When(a + b, condition, part) == a + When(b, condition, part)
  {
    assert a + b + [part] == a + (b + [part]);
  }

  /** CI's blockers are the pending work and then the reasons of the text, one for one. */
  lemma CiNamesTheReasons(e: Evidence, pending: nat)
    ensures CiBlockers(e, pending) == When([], pending > 0, PendingEvidence) + RequiredReason(e)
  {
    hide When;
    var a := When([], pending > 0, PendingEvidence);
    assert a + [] == a;
    var p1 := When([], e.risks > 0, OpenRisks(e.risks));
    WhenAfter(a, [], e.risks > 0, OpenRisks(e.risks));
    var p2 := When(p1, e.missingControls > 0, MissingControls(e.missingControls));
    WhenAfter(a, p1, e.missingControls > 0, MissingControls(e.missingControls));
    var p3 := When(p2, e.undercovered > 0, Undercovered(e.undercovered));
    WhenAfter(a, p2, e.undercovered > 0, Undercovered(e.undercovered));
    var p4 := When(p3, e.changes > e.maxChanges, MaterialChanges(e.changes));
    WhenAfter(a, p3, e.changes > e.maxChanges, MaterialChanges(e.changes));
    var p5 := When(p4, !e.promptLinked, MissingPrompt);
    WhenAfter(a, p4, !e.promptLinked, MissingPrompt);
    WhenAfter(a, p5, e.passingEvals == 0, MissingEval(e.requireAttested));
  }

  predicate NonePending(parts: seq<Part>) {
    forall p <- parts :: p != PendingEvidence
  }

  lemma WhenNonePending(parts: seq<Part>, condition: bool, part: Part)
    requires NonePending(parts) && part != PendingEvidence
    ensures NonePending(When(parts, condition, part))
  {
  }

  lemma ReasonIsNotPending(e: Evidence)
    ensures NonePending(RequiredReason(e))
  {
    hide When, NonePending;
    assert NonePending([]) by { NothingIsNonePending(); }
    var p1 := When([], e.risks > 0, OpenRisks(e.risks));
    WhenNonePending([], e.risks > 0, OpenRisks(e.risks));
    var p2 := When(p1, e.missingControls > 0, MissingControls(e.missingControls));
    WhenNonePending(p1, e.missingControls > 0, MissingControls(e.missingControls));
    var p3 := When(p2, e.undercovered > 0, Undercovered(e.undercovered));
    WhenNonePending(p2, e.undercovered > 0, Undercovered(e.undercovered));
    var p4 := When(p3, e.changes > e.maxChanges, MaterialChanges(e.changes));
    WhenNonePending(p3, e.changes > e.maxChanges, MaterialChanges(e.changes));
    var p5 := When(p4, !e.promptLinked, MissingPrompt);
    WhenNonePending(p4, !e.promptLinked, MissingPrompt);
    WhenNonePending(p5, e.passingEvals == 0, MissingEval(e.requireAttested));
  }

  lemma NothingIsNonePending()
    ensures NonePending([])
  {
  }

  // ----- refreshes and decisions -----

  datatype Refusal = NotFound | AlreadyDecided(status: Status) | Blocked(part: Part) | NoRationale

  function Refreshed(gates: map<GateId, Gate>, id: GateId, e: Evidence): map<GateId, Gate> {
    if id in gates then
      var status := if gates[id].status in {Approved, Rejected} then gates[id].status else PendingReview;
      gates[id := gates[id].(status := status, evidence := e, reason := RequiredReason(e))]
    else gates[id := Gate(PendingReview, e, RequiredReason(e), None, None)]
  }

  /** Why a decision is refused, in the order of the checks. */
  function DecisionRefusal(gates: map<GateId, Gate>, id: GateId, approve: bool, e: Evidence, rationale: string):
      Option<Refusal>
  {
    if id !in gates then Some(NotFound)
    else if gates[id].status in {Approved, Rejected} then Some(AlreadyDecided(gates[id].status))
    else if approve && ApprovalFault(e).Some? then Some(Blocked(ApprovalFault(e).value))
    else if rationale == "" then Some(NoRationale)
    else None
  }

  function DecidedGate(gate: Gate, approve: bool, e: Evidence, actor: string, rationale: string): Gate {
    var checked := if approve then gate.(evidence := e, reason := RequiredReason(e)) else gate;
    checked.(status := if approve then Approved else Rejected, actor := Some(actor), rationale := Some(rationale))
  }

  /** `gate_required_reason`, built part by part. */
  method ReasonText(e: Evidence) returns (parts: seq<Part>)
    ensures parts == RequiredReason(e)
    ensures parts == [] <==> ApprovalFault(e) == None
  {
    AnswersAgree(e);
    parts := [];
    if e.risks > 0 { parts := parts + [OpenRisks(e.risks)]; }
    if e.missingControls > 0 { parts := parts + [MissingControls(e.missingControls)]; }
    if e.undercovered > 0 { parts := parts + [Undercovered(e.undercovered)]; }
    if e.changes > e.maxChanges { parts := parts + [MaterialChanges(e.changes)]; }
    if !e.promptLinked { parts := parts + [MissingPrompt]; }
    if e.passingEvals == 0 { parts := parts + [MissingEval(e.requireAttested)]; }
  }

  class GateStore {
    var gates: map<GateId, Gate>

    /** `upsert_deployment_gate`. */
    method Refresh(id: GateId, e: Evidence)
      modifies this
      ensures gates == Refreshed(old(gates), id, e)
    {
      var parts := ReasonText(e);
      if id in gates {
        var status := PendingReview;
        if gates[id].status == Approved || gates[id].status == Rejected { status := gates[id].status; }
        gates := gates[id := gates[id].(status := status, evidence := e, reason := parts)];
      } else {
        gates := gates[id := Gate(PendingReview, e, parts, None, None)];
      }
    }

    /** `set_deployment_gate_status`, on the evidence recomputed at that moment. */
    method Decide(id: GateId, approve: bool, e: Evidence, actor: string, rationale: string)
      returns (refusal: Option<Refusal>)
      modifies this
      ensures refusal == DecisionRefusal(old(gates), id, approve, e, rationale)
      ensures gates == if refusal.Some? then old(gates)
                       else old(gates)[id := DecidedGate(old(gates)[id], approve, e, actor, rationale)]
    {
      if id !in gates { return Some(NotFound); }
      var gate := gates[id];
      if gate.status == Approved || gate.status == Rejected { return Some(AlreadyDecided(gate.status)); }
      if approve {
        if !e.promptLinked || e.passingEvals == 0 { return Some(Blocked(MissingEval(e.requireAttested))); }
        if e.risks > 0 { return Some(Blocked(OpenRisks(e.risks))); }
        if e.missingControls > 0 { return Some(Blocked(MissingControls(e.missingControls))); }
        if e.undercovered > 0 { return Some(Blocked(Undercovered(e.undercovered))); }
        if e.changes > e.maxChanges { return Some(Blocked(MaterialChanges(e.changes))); }
      }
      if rationale == "" { return Some(NoRationale); }
      if approve { gate := gate.(evidence := e, reason := RequiredReason(e)); }
      gates := gates[id := gate.(status := if approve then Approved else Rejected, actor := Some(actor),
                                 rationale := Some(rationale))];
      return None;
    }
  }

  // ----- runs -----

  datatype Event =
    | EventRefresh(id: GateId, e: Evidence)
    | EventDecide(id: GateId, approve: bool, e: Evidence, actor: string, rationale: string)

  function Apply(gates: map<GateId, Gate>, event: Event): map<GateId, Gate> {
    match event
    case EventRefresh(id, e) => Refreshed(gates, id, e)
    case EventDecide(id, approve, e, actor, rationale) =>
      if DecisionRefusal(gates, id, approve, e, rationale).Some? then gates
      else gates[id := DecidedGate(gates[id], approve, e, actor, rationale)]
  }

  function Run(gates: map<GateId, Gate>, events: seq<Event>): map<GateId, Gate> {
    if events == [] then gates else Apply(Run(gates, events[..|events| - 1]), events[|events| - 1])
  }

  /** A decision is terminal: across any refreshes and any further decisions, the status, the person and
      the rationale stay. */
  lemma {:induction false} DecisionIsTerminal(gates: map<GateId, Gate>, events: seq<Event>, id: GateId)
    requires id in gates && gates[id].status in {Approved, Rejected}
    ensures id in Run(gates, events)
    ensures var gate := Run(gates, events)[id];
      gate.status == gates[id].status && gate.actor == gates[id].actor && gate.rationale == gates[id].rationale
  {
    if events != [] { DecisionIsTerminal(gates, events[..|events| - 1], id); }
  }

  /** The event that approved a gate, on clear evidence and with a rationale. */
  predicate Approves(event: Event, id: GateId) {
    event.EventDecide? && event.id == id && event.approve && event.rationale != "" && ApprovalFault(event.e) == None
  }

  /** No gate approves itself: an approved gate of any run was approved by a person who gave a rationale,
      at a moment when its evidence was clear. */
  lemma {:induction false} ApprovalWasEarned(events: seq<Event>, id: GateId)
    requires id in Run(map[], events) && Run(map[], events)[id].status == Approved
    ensures exists event <- events :: Approves(event, id)
  {
    if events != [] {
      var n := |events| - 1;
      var before := Run(map[], events[..n]);
      if id in before && before[id].status == Approved {
        ApprovalWasEarned(events[..n], id);
        var event :| event in events[..n] && Approves(event, id);
        assert event in events;
      } else {
        assert Approves(events[n], id);
      }
    }
  }

  // ----- what a decision and a refresh leave -----

  /** Nothing stands against a release. */
  predicate Clear(e: Evidence) {
    && e.risks == 0 && e.missingControls == 0 && e.undercovered == 0 && e.changes <= e.maxChanges
    && e.promptLinked && e.passingEvals >= 1
  }

  /** A decision goes through exactly for a pending gate, with a rationale, and for an approval on clear
      evidence.  It leaves the gate approved without a reason against it, or rejected with the evidence it
      had; in any other case, and for any other gate, nothing changes. */
  lemma DecisionLeaves(gates: map<GateId, Gate>, id: GateId, approve: bool, e: Evidence, actor: string,
                       rationale: string)
    ensures var goes := id in gates && gates[id].status == PendingReview && rationale != "" && (approve ==> Clear(e));
      var after := Apply(gates, EventDecide(id, approve, e, actor, rationale));
      && (!goes ==> after == gates)
      && (goes ==>
            && id in after && after.Keys == gates.Keys && (forall other <- gates | other != id :: after[other] == gates[other])
            && after[id] == if approve then Gate(Approved, e, [], Some(actor), Some(rationale))
                            else Gate(Rejected, gates[id].evidence, gates[id].reason, Some(actor), Some(rationale)))
  {
    AnswersAgree(e);
  }

  /** The gate's evidence after event `k` refreshed it: that of the refresh, or that of a later approval. */
  predicate Shows(events: seq<Event>, k: nat, id: GateId, e: Evidence, gate: Gate) {
    || (gate.evidence == e && (gate.reason == [] <==> Clear(e)))
    || (gate.status == Approved
        && exists i :: k < i < |events| && Approves(events[i], id) && gate.evidence == events[i].e)
  }

  /** Whatever was decided before or since, a gate shows the evidence of its latest refresh, or that of an
      approval given after it. */
  lemma {:induction false} GateShowsTheLatestEvidence(events: seq<Event>, k: nat, id: GateId, e: Evidence)
    requires k < |events| && events[k] == EventRefresh(id, e)
    requires forall i :: k < i < |events| && events[i].EventRefresh? ==> events[i].id != id
    ensures id in Run(map[], events) && Shows(events, k, id, e, Run(map[], events)[id])
  {
    hide Apply, Shows;
    var n := |events| - 1;
    var before := Run(map[], events[..n]);
    if k == n {
      RefreshShows(before, events, id, e);
    } else {
      GateShowsTheLatestEvidence(events[..n], k, id, e);
      StillShows(events, k, id, e, before[id]);
      OtherEventsKeep(before, events[n], id);
      var gate := Apply(before, events[n])[id];
      if gate.evidence != before[id].evidence || gate.reason != before[id].reason {
        ApprovalShows(events, k, id, e, gate);
      } else {
        DecidedShows(events, k, id, e, before[id], gate);
      }
    }
  }

  lemma RefreshShows(gates: map<GateId, Gate>, events: seq<Event>, id: GateId, e: Evidence)
    requires events != [] && events[|events| - 1] == EventRefresh(id, e)
    ensures id in Apply(gates, EventRefresh(id, e))
    ensures Shows(events, |events| - 1, id, e, Apply(gates, EventRefresh(id, e))[id])
  {
    AnswersAgree(e);
  }

  lemma StillShows(events: seq<Event>, k: nat, id: GateId, e: Evidence, gate: Gate)
    requires events != [] && Shows(events[..|events| - 1], k, id, e, gate)
    ensures Shows(events, k, id, e, gate)
  {
    var n := |events| - 1;
    if i :| k < i < n && Approves(events[..n][i], id) && gate.evidence == events[..n][i].e {
      assert Approves(events[i], id);
    }
  }

  lemma ApprovalShows(events: seq<Event>, k: nat, id: GateId, e: Evidence, gate: Gate)
    requires k < |events| - 1 && gate.status == Approved
    requires Approves(events[|events| - 1], id) && gate.evidence == events[|events| - 1].e
    ensures Shows(events, k, id, e, gate)
  {
  }

  lemma DecidedShows(events: seq<Event>, k: nat, id: GateId, e: Evidence, before: Gate, gate: Gate)
    requires Shows(events, k, id, e, before) && gate.evidence == before.evidence && gate.reason == before.reason
    requires before.status == Approved ==> gate.status == Approved
    ensures Shows(events, k, id, e, gate)
  {
  }

  /** Any event but a refresh of the gate leaves its evidence, or approves it on new evidence. */
  lemma OtherEventsKeep(gates: map<GateId, Gate>, event: Event, id: GateId)
    requires id in gates && (event.EventRefresh? ==> event.id != id)
    ensures id in Apply(gates, event)
    ensures var gate := Apply(gates, event)[id];
      || (gate.evidence == gates[id].evidence && gate.reason == gates[id].reason
          && (gates[id].status == Approved ==> gate.status == Approved))
      || (gate.status == Approved && Approves(event, id) && gate.evidence == event.e)
  {
    hide RequiredReason, ApprovalFault;
  }
}
