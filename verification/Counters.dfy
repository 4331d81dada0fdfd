/** What the inventory columns hold, in the events' own terms (storage/entities.py): which events a row is
    about, and what each counter and set column of the row says of them. */
module Counters {

  import opened Common
  import opened Inventory
  import opened Ledger
  import FoldRuns

  /** The counted events of a ledger, in order. */
  function Counted(ledger: seq<Row>): seq<Event> {
    if ledger == [] then []
    else
      var last := ledger[|ledger| - 1];
      Counted(ledger[..|ledger| - 1]) + if last.counted then [last.event] else []
  }

  /** Event types of a running application. */
  const RUNTIME: set<EventType> :=
    {ModelCall, AgentRun, ToolCall, RetrievalCall, GuardrailDecision, TraceCompleted, SdkHealth}

  /** The evidence controls and the event type each is about. */
  const CONTROLS: map<string, EventType> := map[
    "Provider and model usage is inventoried" := ModelCall,
    "Workflow traces are captured" := TraceCompleted,
    "SDK fail-open health is visible" := SdkHealth,
    "Retrieval evidence is captured" := RetrievalCall,
    "Tool execution evidence is captured" := ToolCall,
    "Guardrail decisions are captured" := GuardrailDecision,
    "Evaluation results are captured" := EvalResult,
    "Agent run evidence is captured" := AgentRun]

  /** A missing name. */
  function Named(text: string): string {
    if text == "" then "unknown" else text
  }

  /** The row of a workflow is about the events that declare it; a model call without one counts under
      its span name. */
  predicate InWorkflow(e: Event, workflow: string) {
    if e.workflow != "" then
      e.workflow == workflow && (e.eventType == ModelCall || (e.eventType in RUNTIME && e.application != ""))
    else e.eventType == ModelCall && workflow == Named(e.name)
  }

  /** The key of a row of this kind in the event's tenant, project and environment. */
  function ScopedKey(kind: string, e: Event, parts: seq<string>): string {
    EntityId([kind, e.tenant, e.project, e.environment] + parts)
  }

  /** Whether a row is about an event: the row's key joins its kind, the event's tenant, project and
      environment, and what the row is named after. */
  predicate About(entity: Entity, e: Event) {
    match entity
    case Application(key) =>
      e.eventType in RUNTIME && e.application != ""
      && key == ScopedKey("application", e, [e.application])
    case Workflow(key) =>
      exists w | w in {e.workflow, e.name, "unknown"} ::
        InWorkflow(e, w) && key == ScopedKey("workflow", e, [w])
    case Model(key) =>
      e.eventType == ModelCall
      && key == ScopedKey("model", e, [Named(e.provider), Named(e.model)])
    case Provider(key) =>
      e.eventType == ModelCall && e.provider != ""
      && key == ScopedKey("provider", e, [e.provider])
    case Control(key) =>
      exists c <- CONTROLS :: CONTROLS[c] == e.eventType
                              && key == ScopedKey("control", e, [c])
  }

  /** The events among these that a row is about. */
  function Mine(events: seq<Event>, entity: Entity): seq<Event> {
    if events == [] then []
    else
      Mine(events[..|events| - 1], entity)
      + if About(entity, events[|events| - 1]) then [events[|events| - 1]] else []
  }

  function ModelCalls(events: seq<Event>): nat {
    if events == [] then 0
    else ModelCalls(events[..|events| - 1]) + if events[|events| - 1].eventType == ModelCall then 1 else 0
  }

  function Errors(events: seq<Event>): nat {
    if events == [] then 0
    else Errors(events[..|events| - 1]) + if events[|events| - 1].isError then 1 else 0
  }

  function InputTokens(events: seq<Event>): int {
    if events == [] then 0 else InputTokens(events[..|events| - 1]) + events[|events| - 1].inputTokens
  }

  function OutputTokens(events: seq<Event>): int {
    if events == [] then 0 else OutputTokens(events[..|events| - 1]) + events[|events| - 1].outputTokens
  }

  /** The columns of a row that is about these events.  Set columns hold the texts the events carry. */
  ghost predicate Holds(row: Aggregate, mine: seq<Event>, entity: Entity) {
    && row.errors == (if entity.Control? then 0 else Errors(mine))
    && row.calls == (if entity.Control? then 0 else ModelCalls(mine))
    && row.evidence == (if entity.Control? then |mine| else 0)
    && row.inputTokens == (if entity.Provider? || entity.Control? then 0 else InputTokens(mine))
    && row.outputTokens == (if entity.Provider? || entity.Control? then 0 else OutputTokens(mine))
    && forall column, text ::
         (column, text) in row.labels <==> text != "" && exists e <- mine :: Carries(entity, e, column, text)
  }

  /** Which set column of a row takes which text of an event. */
  predicate Carries(entity: Entity, e: Event, column: string, text: string) {
    match entity
    case Application(_) =>
      || (column == "use_cases" && text == e.useCase) || (column == "model_purposes" && text == e.purpose)
      || (column == "providers" && text == e.provider) || (column == "models" && text == e.model)
    case Workflow(_) =>
      || (column == "applications" && text == e.application)
      || (column == "providers" && text == e.provider) || (column == "models" && text == e.model)
    case Model(_) =>
      (column == "operations" && text == e.operation) || (column == "applications" && text == e.application)
    case Provider(_) =>
      (column == "models" && text == e.model) || (column == "applications" && text == e.application)
    case Control(_) => false
  }

  lemma ControlsAreNamed(e: Event, c: string)
    ensures c in CONTROLS && CONTROLS[c] == e.eventType <==> c != "" && c == ControlName(e.eventType)
  {
  }

  lemma KeysAreScoped(e: Event, control: string)
    ensures ApplicationKey(e) == ScopedKey("application", e, [e.application])
    ensures WorkflowKey(e) == ScopedKey("workflow", e, [WorkflowName(e)])
    ensures ModelKey(e) == ScopedKey("model", e, [Named(e.provider), Named(e.model)])
    ensures ProviderKey(e) == ScopedKey("provider", e, [e.provider])
    ensures ControlKey(e, control) == ScopedKey("control", e, [control])
  {
    hide EntityId;
    assert ["application", e.tenant, e.project, e.environment, e.application]
        == ["application", e.tenant, e.project, e.environment] + [e.application];
    assert ["workflow", e.tenant, e.project, e.environment, WorkflowName(e)]
        == ["workflow", e.tenant, e.project, e.environment] + [WorkflowName(e)];
    assert ["model", e.tenant, e.project, e.environment, OrUnknown(e.provider), OrUnknown(e.model)]
        == ["model", e.tenant, e.project, e.environment] + [OrUnknown(e.provider), OrUnknown(e.model)];
    assert ["provider", e.tenant, e.project, e.environment, e.provider]
        == ["provider", e.tenant, e.project, e.environment] + [e.provider];
    assert ["control", e.tenant, e.project, e.environment, control]
        == ["control", e.tenant, e.project, e.environment] + [control];
  }

  lemma AboutIsTouched(entity: Entity, e: Event)
    ensures About(entity, e) <==> entity in Touched(e)
  {
    hide EntityId, ControlName, ScopedKey, ApplicationKey, WorkflowKey, ModelKey, ProviderKey, ControlKey;
    KeysAreScoped(e, ControlName(e.eventType));
    forall c
      ensures c in CONTROLS && CONTROLS[c] == e.eventType <==> c != "" && c == ControlName(e.eventType)
    {
      ControlsAreNamed(e, c);
    }
    if ControlName(e.eventType) != "" { assert ControlName(e.eventType) in CONTROLS; }
    assert forall w :: InWorkflow(e, w) ==> w == WorkflowName(e);
    assert WorkflowName(e) in {e.workflow, e.name, "unknown"};
    assert InWorkflow(e, WorkflowName(e)) <==>
      e.eventType == ModelCall || (e.eventType in RUNTIME && e.application != "" && e.workflow != "");
  }

  lemma OneEvent(e: Event)
    ensures Errors([e]) == (if e.isError then 1 else 0) && ModelCalls([e]) == (if e.eventType == ModelCall then 1 else 0)
    ensures InputTokens([e]) == e.inputTokens && OutputTokens([e]) == e.outputTokens
  {
    assert [e][..0] == [];
    assert Errors([]) == 0 && ModelCalls([]) == 0 && InputTokens([]) == 0 && OutputTokens([]) == 0;
  }

  lemma ContributionHolds(entity: Entity, e: Event)
    requires About(entity, e)
    ensures Holds(Contribution(e, entity), [e], entity)
  {
    AboutIsTouched(entity, e);
    ModelRowsAreCalls(entity, e);
    OneEvent(e);
    ContributionCarries(entity, e);
    hide About, Touched, Errors, ModelCalls, InputTokens, OutputTokens, Carries;
    forall column, text
      ensures (column, text) in Contribution(e, entity).labels
              <==> text != "" && exists x <- [e] :: Carries(entity, x, column, text)
    {
      assert e in [e];
    }
  }

  lemma ModelRowsAreCalls(entity: Entity, e: Event)
    requires About(entity, e)
    ensures entity.Model? || entity.Provider? ==> e.eventType == ModelCall
  {
  }

  lemma ContributionCarries(entity: Entity, e: Event)
    requires entity in Touched(e)
    ensures forall column, text ::
      (column, text) in Contribution(e, entity).labels <==> text != "" && Carries(entity, e, column, text)
  {
    hide Touched;
  }

  lemma HoldsTogether(a: Aggregate, b: Aggregate, mine: seq<Event>, e: Event, entity: Entity)
    requires Holds(a, mine, entity) && Holds(b, [e], entity)
    ensures Holds(Plus(a, b), mine + [e], entity)
  {
    OneEvent(e);
    hide Carries;
    var more := mine + [e];
    assert more[..|more| - 1] == mine;
    forall column, text
      ensures (column, text) in Plus(a, b).labels
              <==> text != "" && exists x <- more :: Carries(entity, x, column, text)
    {
      assert e in more && e in [e];
      assert (column, text) in a.labels <==> text != "" && exists x <- mine :: Carries(entity, x, column, text);
      assert (column, text) in b.labels <==> text != "" && exists x <- [e] :: Carries(entity, x, column, text);
    }
  }

  lemma NextMine(events: seq<Event>, e: Event, entity: Entity)
    ensures Mine(events + [e], entity) == if About(entity, e) then Mine(events, entity) + [e] else Mine(events, entity)
  {
    hide About;
    assert (events + [e])[..|events|] == events;
  }

  lemma {:induction false} TotalHolds(ledger: seq<Row>, entity: Entity)
    ensures Holds(Total(ledger, entity), Mine(Counted(ledger), entity), entity)
  {
    hide Contribution, Plus, About, Holds, Carries;
    if ledger == [] {
      NothingHolds(entity);
    } else {
      var before, last := ledger[..|ledger| - 1], ledger[|ledger| - 1];
      TotalHolds(before, entity);
      PlusLaws(Total(before, entity), ZERO, ZERO);
      if last.counted {
        AboutIsTouched(entity, last.event);
        if About(entity, last.event) {
          ContributionHolds(entity, last.event);
          HoldsTogether(Total(before, entity), Contribution(last.event, entity), Mine(Counted(before), entity),
                        last.event, entity);
        } else {
          NoContribution(entity, last.event);
        }
        NextMine(Counted(before), last.event, entity);
      } else {
        assert Counted(ledger) == Counted(before);
      }
    }
  }

  lemma NothingHolds(entity: Entity)
    ensures Holds(ZERO, [], entity)
  {
  }

  lemma NoContribution(entity: Entity, e: Event)
    requires entity !in Touched(e)
    ensures Contribution(e, entity) == ZERO
  {
  }

  lemma {:induction false} MineIsObserved(ledger: seq<Row>, entity: Entity)
    ensures Mine(Counted(ledger), entity) != [] <==> Observed(ledger, entity)
  {
    hide About, Touched;
    if ledger != [] {
      var before, last := ledger[..|ledger| - 1], ledger[|ledger| - 1];
      MineIsObserved(before, entity);
      AboutIsTouched(entity, last.event);
      if last.counted {
        NextMine(Counted(before), last.event, entity);
      } else {
        assert Counted(ledger) == Counted(before);
      }
      if Observed(before, entity) {
        var i :| 0 <= i < |before| && before[i].counted && entity in Touched(before[i].event);
        assert ledger[i] == before[i];
      }
      if Observed(ledger, entity) && !(last.counted && entity in Touched(last.event)) {
        var i :| 0 <= i < |ledger| && ledger[i].counted && entity in Touched(ledger[i].event);
        assert before[i] == ledger[i];
      }
    }
  }

  /** In a sound ledger there is a row exactly for what some counted event is about, and its columns hold
      exactly what the counted events of that row say. */
  lemma ColumnsAreTrue(db: Db, entity: Entity)
    requires ExactlyOnce(db)
    ensures Holds(Lookup(db.inventory, entity), Mine(Counted(db.ledger), entity), entity)
    ensures entity in db.inventory <==> Mine(Counted(db.ledger), entity) != []
  {
    hide Holds, Total, Observed, Mine, Counted;
    TotalHolds(db.ledger, entity);
    MineIsObserved(db.ledger, entity);
    assert Lookup(db.inventory, entity) == Total(db.ledger, entity);
  }

  // ----- rows of different scopes -----

  predicate Free(part: string) {
    '|' !in part
  }

  /** Where the first separator is, or the end. */
  function FirstBar(s: string): nat {
    if s == "" || s[0] == '|' then 0 else 1 + FirstBar(s[1..])
  }

  lemma {:induction false} FirstBarEndsAPart(part: string, rest: string)
    requires Free(part)
    ensures FirstBar(part + ("|" + rest)) == |part|
  {
    var s := part + ("|" + rest);
    if part != "" {
      assert s[1..] == part[1..] + ("|" + rest);
      FirstBarEndsAPart(part[1..], rest);
    }
  }

  /** Keys of parts free of the separator name their parts; the last part may be any text. */
  lemma {:induction false} KeysNameTheirParts(a: seq<string>, b: seq<string>)
    requires |a| == |b| && forall i :: 0 <= i < |a| - 1 ==> Free(a[i]) && Free(b[i])
    requires EntityId(a) == EntityId(b)
    ensures a == b
  {
    if |a| > 1 {
      var p, q := a[0] + ("|" + EntityId(a[1..])), b[0] + ("|" + EntityId(b[1..]));
      assert EntityId(a) == p && EntityId(b) == q;
      FirstBarEndsAPart(a[0], EntityId(a[1..]));
      FirstBarEndsAPart(b[0], EntityId(b[1..]));
      var i := |a[0]|;
      assert a[0] == p[..i] && b[0] == q[..i];
      assert EntityId(a[1..]) == p[i + 1..] && EntityId(b[1..]) == q[i + 1..];
      KeysNameTheirParts(a[1..], b[1..]);
      assert a == [a[0]] + a[1..] && b == [b[0]] + b[1..];
    }
  }

  predicate Plain(e: Event) {
    Free(e.tenant) && Free(e.project) && Free(e.environment) && Free(e.provider)
  }

  /** The parts that name a row are of one event as of the other. */
  lemma SameParts(kind: string, a: Event, x: seq<string>, b: Event, y: seq<string>)
    requires Plain(a) && Plain(b) && Free(kind) && |x| == |y|
    requires forall i :: 0 <= i < |x| - 1 ==> Free(x[i]) && Free(y[i])
    requires ScopedKey(kind, a, x) == ScopedKey(kind, b, y)
    ensures a.tenant == b.tenant && a.project == b.project && a.environment == b.environment && x == y
  {
    hide EntityId, Free;
    var p, q := [kind, a.tenant, a.project, a.environment], [kind, b.tenant, b.project, b.environment];
    KeysNameTheirParts(p + x, q + y);
    assert (p + x)[..4] == p && (q + y)[..4] == q && (p + x)[4..] == x && (q + y)[4..] == y;
    assert p[1] == q[1] && p[2] == q[2] && p[3] == q[3];
  }

  /** A row is about events of one tenant, project and environment, and of one application, workflow,
      model of a provider, provider or event type. */
  lemma OneScopeARow(entity: Entity, e: Event, f: Event)
    requires About(entity, e) && About(entity, f) && Plain(e) && Plain(f)
    ensures e.tenant == f.tenant && e.project == f.project && e.environment == f.environment
    ensures match entity
            case Application(_) => e.application == f.application
            case Workflow(_) => exists w :: InWorkflow(e, w) && InWorkflow(f, w)
            case Model(_) => Named(e.provider) == Named(f.provider) && Named(e.model) == Named(f.model)
            case Provider(_) => e.provider == f.provider
            case Control(_) => e.eventType == f.eventType
  {
    hide ScopedKey;
    match entity
    case Application(_) => SameParts("application", e, [e.application], f, [f.application]);
    case Workflow(key) =>
      var w :| w in {e.workflow, e.name, "unknown"}
        && InWorkflow(e, w) && key == ScopedKey("workflow", e, [w]);
      var v :| v in {f.workflow, f.name, "unknown"}
        && InWorkflow(f, v) && key == ScopedKey("workflow", f, [v]);
      SameParts("workflow", e, [w], f, [v]);
    case Model(_) =>
      SameParts("model", e, [Named(e.provider), Named(e.model)], f, [Named(f.provider), Named(f.model)]);
    case Provider(_) => SameParts("provider", e, [e.provider], f, [f.provider]);
    case Control(_) => SameControl(entity, e, f);
  }

  lemma SameControl(entity: Entity, e: Event, f: Event)
    requires entity.Control? && About(entity, e) && About(entity, f) && Plain(e) && Plain(f)
    ensures e.tenant == f.tenant && e.project == f.project && e.environment == f.environment
    ensures e.eventType == f.eventType
  {
    hide ScopedKey;
    var c :| c in CONTROLS && CONTROLS[c] == e.eventType
      && entity.key == ScopedKey("control", e, [c]);
    var d :| d in CONTROLS && CONTROLS[d] == f.eventType
      && entity.key == ScopedKey("control", f, [d]);
    SameParts("control", e, [c], f, [d]);
  }

  // ----- over runs -----

  lemma {:induction false} AllAreCounted(ledger: seq<Row>)
    requires forall i :: 0 <= i < |ledger| ==> ledger[i].counted
    ensures Counted(ledger) == FoldRuns.Events(ledger)
  {
    if ledger != [] {
      AllAreCounted(ledger[..|ledger| - 1]);
    }
  }

  /** At any moment of any run the columns of every row hold what its counted events say; and once no row
      is pending, what the distinct spans delivered say. */
  lemma RunsCountTruly(steps: seq<FoldRuns.Step>, entity: Entity)
    ensures var db := FoldRuns.FromStart(steps).db;
      && Holds(Lookup(db.inventory, entity), Mine(Counted(db.ledger), entity), entity)
      && ((forall i :: 0 <= i < |db.ledger| ==> db.ledger[i].folded) ==> Counted(db.ledger) == FoldRuns.Stored(steps))
  {
    hide Holds, Mine, Lookup, ExactlyOnce, FoldRuns.FromStart, FoldRuns.Stored;
    FoldRuns.ExactlyOnceCounting(steps);
    var db := FoldRuns.FromStart(steps).db;
    ColumnsAreTrue(db, entity);
    if forall i :: 0 <= i < |db.ledger| ==> db.ledger[i].folded {
      forall i | 0 <= i < |db.ledger|
        ensures db.ledger[i].counted
      {
        assert (i, 0) in db.done;
      }
      AllAreCounted(db.ledger);
    }
  }
}
