/** The derived inventory of storage/entities.py: which entity rows one event touches, and by how
    much.  `Contribution` and `Touched` are the declarative reading of an event; the upserts that
    realise them row by row are methods of `Fold.Database`. */
module Inventory {

  datatype EventType =
    | ModelCall | AgentRun | ToolCall | RetrievalCall | GuardrailDecision
    | TraceCompleted | SdkHealth | EvalResult | Other(name: string)

  /** An SDK event, with a missing or null text field written as "". */
  datatype Event = Event(
    eventType: EventType, tenant: string, project: string, environment: string, name: string, isError: bool,
    application: string, workflow: string, useCase: string, purpose: string,
    provider: string, model: string, operation: string, inputTokens: int, outputTokens: int)

  /** The inventory tables, each row named by the text that `entity_id` hashes. */
  datatype Entity =
    | Application(key: string) | Workflow(key: string) | Model(key: string) | Provider(key: string)
    | Control(key: string)

  /** The columns of an inventory row that accumulate.  `labels` holds the json set columns as
      (column, value) pairs. */
  datatype Aggregate = Aggregate(
    calls: int, errors: int, inputTokens: int, outputTokens: int, evidence: int, labels: set<(string, string)>)

  const ZERO := Aggregate(0, 0, 0, 0, 0, {})

  function Plus(a: Aggregate, b: Aggregate): Aggregate {
    Aggregate(a.calls + b.calls, a.errors + b.errors, a.inputTokens + b.inputTokens,
              a.outputTokens + b.outputTokens, a.evidence + b.evidence, a.labels + b.labels)
  }

  lemma PlusLaws(a: Aggregate, b: Aggregate, c: Aggregate)
    ensures Plus(a, ZERO) == a == Plus(ZERO, a)
    ensures Plus(a, b) == Plus(b, a)
    ensures Plus(Plus(a, b), c) == Plus(a, Plus(b, c))
  {
    assert a.labels + b.labels == b.labels + a.labels;
    assert (a.labels + b.labels) + c.labels == a.labels + (b.labels + c.labels);
  }

  type Table = map<Entity, Aggregate>

  function Lookup(table: Table, entity: Entity): Aggregate {
    if entity in table then table[entity] else ZERO
  }

  /** "|".join over the parts, the text that `entity_id` hashes. */
  function EntityId(parts: seq<string>): string {
    if |parts| == 0 then "" else if |parts| == 1 then parts[0] else parts[0] + "|" + EntityId(parts[1..])
  }

  function WorkflowName(e: Event): string {
    if e.workflow != "" then e.workflow else if e.name != "" then e.name else "unknown"
  }

  function OrUnknown(text: string): string {
    if text != "" then text else "unknown"
  }

  function ApplicationKey(e: Event): string {
    EntityId(["application", e.tenant, e.project, e.environment, e.application])
  }

  function WorkflowKey(e: Event): string {
    EntityId(["workflow", e.tenant, e.project, e.environment, WorkflowName(e)])
  }

  function ModelKey(e: Event): string {
    EntityId(["model", e.tenant, e.project, e.environment, OrUnknown(e.provider), OrUnknown(e.model)])
  }

  function ProviderKey(e: Event): string {
    EntityId(["provider", e.tenant, e.project, e.environment, e.provider])
  }

  function ControlKey(e: Event, control: string): string {
    EntityId(["control", e.tenant, e.project, e.environment, control])
  }

  /** Event types that show an application ran. */
  predicate IsRuntime(t: EventType) {
    !t.Other? && !t.EvalResult?
  }

  /** The name of the evidence control an event type feeds, or "" when it feeds none. */
  function ControlName(t: EventType): string {
    match t
    case ModelCall => "Provider and model usage is inventoried"
    case TraceCompleted => "Workflow traces are captured"
    case SdkHealth => "SDK fail-open health is visible"
    case RetrievalCall => "Retrieval evidence is captured"
    case ToolCall => "Tool execution evidence is captured"
    case GuardrailDecision => "Guardrail decisions are captured"
    case EvalResult => "Evaluation results are captured"
    case AgentRun => "Agent run evidence is captured"
    case Other(_) => ""
  }

  /** A set column gains a value only when the event carries one. */
  function Label(column: string, value: string): set<(string, string)> {
    if value == "" then {} else {(column, value)}
  }

  /** The inventory rows that must exist once the event has been projected. */
  function Touched(e: Event): set<Entity> {
    (if IsRuntime(e.eventType) && e.application != "" then {Application(ApplicationKey(e))} else {})
    + (if e.eventType.ModelCall? || (IsRuntime(e.eventType) && e.application != "" && e.workflow != "")
       then {Workflow(WorkflowKey(e))} else {})
    + (if e.eventType.ModelCall? then {Model(ModelKey(e))} else {})
    + (if e.eventType.ModelCall? && e.provider != "" then {Provider(ProviderKey(e))} else {})
    + (if ControlName(e.eventType) != "" then {Control(ControlKey(e, ControlName(e.eventType)))} else {})
  }

  /** What projecting the event once adds to a row. */
  function Contribution(e: Event, entity: Entity): Aggregate {
    var calls := if e.eventType.ModelCall? then 1 else 0;
    var errors := if e.isError then 1 else 0;
    if entity !in Touched(e) then ZERO
    else match entity
      case Application(_) =>
        Aggregate(calls, errors, e.inputTokens, e.outputTokens, 0,
                  Label("use_cases", e.useCase) + Label("model_purposes", e.purpose)
                  + Label("providers", e.provider) + Label("models", e.model))
      case Workflow(_) =>
        Aggregate(calls, errors, e.inputTokens, e.outputTokens, 0,
                  Label("applications", e.application) + Label("providers", e.provider) + Label("models", e.model))
      case Model(_) =>
        Aggregate(1, errors, e.inputTokens, e.outputTokens, 0,
                  Label("operations", e.operation) + Label("applications", e.application))
      case Provider(_) =>
        Aggregate(1, errors, 0, 0, 0, Label("models", e.model) + Label("applications", e.application))
      case Control(_) =>
        Aggregate(0, 0, 0, 0, 1, {})
  }

  /** The inventory after projecting one event. */
  function Project(table: Table, e: Event): Table {
    map entity | entity in table.Keys + Touched(e) :: Plus(Lookup(table, entity), Contribution(e, entity))
  }

  lemma LookupProject(table: Table, e: Event, entity: Entity)
    ensures Lookup(Project(table, e), entity) == Plus(Lookup(table, entity), Contribution(e, entity))
  {
    PlusLaws(ZERO, ZERO, ZERO);
  }

  lemma ProjectKeys(table: Table, e: Event)
    ensures Project(table, e).Keys == table.Keys + Touched(e)
  {
  }

  /** The table once the event has been added to some of the rows it touches. */
  function Grown(table: Table, e: Event, touched: set<Entity>): Table {
    map entity | entity in table.Keys + touched ::
      Plus(Lookup(table, entity), if entity in touched then Contribution(e, entity) else ZERO)
  }

  lemma GrownKeys(table: Table, e: Event, touched: set<Entity>)
    ensures Grown(table, e, touched).Keys == table.Keys + touched
  {
  }

  lemma GrownAt(table: Table, e: Event, touched: set<Entity>, entity: Entity)
    ensures entity in touched ==>
      Grown(table, e, touched)[entity] == Plus(Lookup(table, entity), Contribution(e, entity))
    ensures entity in table && entity !in touched ==> Grown(table, e, touched)[entity] == table[entity]
  {
    hide Contribution;
    PlusLaws(Lookup(table, entity), ZERO, ZERO);
  }

  lemma GrowOne(table: Table, e: Event, touched: set<Entity>, entity: Entity)
    requires entity !in touched
    ensures var grown := Grown(table, e, touched);
      grown[entity := Plus(Lookup(grown, entity), Contribution(e, entity))] == Grown(table, e, touched + {entity})
  {
    hide Contribution, Touched, Grown, Plus;
    var grown, more := Grown(table, e, touched), Grown(table, e, touched + {entity});
    GrownKeys(table, e, touched);
    GrownKeys(table, e, touched + {entity});
    forall other | other in more
      ensures grown[entity := Plus(Lookup(grown, entity), Contribution(e, entity))][other] == more[other]
    {
      GrownAt(table, e, touched, other);
      GrownAt(table, e, touched + {entity}, other);
    }
  }

  lemma GrownAll(table: Table, e: Event)
    ensures Grown(table, e, {}) == table
    ensures Grown(table, e, Touched(e)) == Project(table, e)
  {
    forall entity | entity in table
      ensures Plus(table[entity], ZERO) == table[entity]
    {
      PlusLaws(table[entity], ZERO, ZERO);
    }
  }
}
