/** The two risk-rule evaluators (storage/governance_policy.py).  One scans an application's events and,
    with them, the sdk.health events of every other application; the other reads column aggregates over
    the application's own events, and delivery reports from the batch being folded. */
module RiskRules {

  import opened Common
  import opened Samples
  import opened WholeWords

  datatype Event = Event(kind: string, error: bool, provider: Option<string>, useCase: string, dropped: int,
                         spoolConfigured: Option<bool>)

  datatype Signal =
    | ProviderDependency | MissingGuardrail | MissingEval | MissingAgentRun | OperationalErrors | FailedEval
    | DeliveryNotDurable

  /** The summaries written on a finding; numbers stand for their decimal text. */
  datatype Summary =
    | Providers(joined: string) | NoGuardrail | NoEval | ToolCallsWithoutRun | TermWithoutRun
    | Errors(count: nat) | FailedEvals(count: nat) | Dropped(most: int) | NoSpool

  const MODEL := "model.call"

  const GUARDRAIL := "guardrail.decision"

  const EVAL := "eval.result"

  const RUN := "agent.run"

  const TOOL := "tool.call"

  const HEALTH := "sdk.health"

  /** How text is lower-cased and which characters make up words. */
  datatype Text = Text(lower: char -> char, word: char -> bool)

  ghost predicate TextOk(t: Text) {
    IsAlphabet(t.word) && t.lower(' ') == ' '
  }

  // ----- counting -----

  function CountKind(events: seq<Event>, kind: string): nat {
    if events == [] then 0 else (if events[0].kind == kind then 1 else 0) + CountKind(events[1..], kind)
  }

  function CountErrors(events: seq<Event>, kind: string): nat {
    if events == [] then 0
    else (if events[0].kind == kind && events[0].error then 1 else 0) + CountErrors(events[1..], kind)
  }

  /** Error events whose status is a runtime outcome, not a verdict. */
  function CountRuntimeErrors(events: seq<Event>): nat {
    if events == [] then 0
    else (if events[0].error && events[0].kind != EVAL then 1 else 0) + CountRuntimeErrors(events[1..])
  }

  /** `", ".join`. */
  function JoinComma(names: seq<string>): string {
    if names == [] then ""
    else if |names| == 1 then names[0]
    else names[0] + ", " + JoinComma(names[1..])
  }

  /** Every provider text on a model call, the empty one included. */
  function NamedProviders(events: seq<Event>): set<string> {
    set e | e in events && e.kind == MODEL && e.provider.Some? :: e.provider.value
  }

  // ----- whose events an evaluator sees -----

  /** A row of sdk_events of one tenant, project and environment. */
  datatype Stored = Stored(application: string, event: Event)

  /** The scope of the column queries and of the batch grouping. */
  function Own(rows: seq<Stored>, app: string): seq<Event> {
    if rows == [] then []
    else (if rows[0].application == app then [rows[0].event] else []) + Own(rows[1..], app)
  }

  /** `list_application_events`: the scope of the scan. */
  function Visible(rows: seq<Stored>, app: string): seq<Event> {
    if rows == [] then []
    else (if rows[0].application == app || rows[0].event.kind == HEALTH then [rows[0].event] else [])
         + Visible(rows[1..], app)
  }

  /** What only the scan sees. */
  function Foreign(rows: seq<Stored>, app: string): seq<Event> {
    if rows == [] then []
    else (if rows[0].application != app && rows[0].event.kind == HEALTH then [rows[0].event] else [])
         + Foreign(rows[1..], app)
  }

  function UseCases(events: seq<Event>): (r: seq<string>)
    ensures |r| == |events| && forall i :: 0 <= i < |events| ==> r[i] == events[i].useCase
  {
    seq(|events|, i requires 0 <= i < |events| => events[i].useCase)
  }

  // ----- evidence delivery -----

  predicate Undurable(e: Event) {
    e.kind == HEALTH && (e.dropped > 0 || e.spoolConfigured == Some(false))
  }

  function Flagged(events: seq<Event>): seq<Event> {
    if events == [] then []
    else (if Undurable(events[0]) then [events[0]] else []) + Flagged(events[1..])
  }

  function MostDropped(events: seq<Event>): int {
    if events == [] then 0
    else if |events| == 1 then events[0].dropped
    else
      var rest := MostDropped(events[1..]);
      if events[0].dropped >= rest then events[0].dropped else rest
  }

  function DeliverySummary(flagged: seq<Event>): Summary {
    if MostDropped(flagged) != 0 then Dropped(MostDropped(flagged)) else NoSpool
  }

  // ----- the two evaluators -----

  /** The whole-word search over the application's name and the events' use cases. */
  predicate AgenticText(app: string, events: seq<Event>, t: Text) {
    Found(Lower(Join([app, Join(UseCases(events))]), t.lower), t.word)
  }

  /** `assess_risk_rules`: what a scan of the events says about a signal. */
  function ScanSummary(signal: Signal, app: string, events: seq<Event>, t: Text): Option<Summary> {
    match signal
    case ProviderDependency =>
      var names := NamedProviders(events);
      if names != {} then Some(Providers(JoinComma(Sorted(names)))) else None
    case MissingGuardrail =>
      if CountKind(events, MODEL) > 0 && CountKind(events, GUARDRAIL) == 0 then Some(NoGuardrail) else None
    case MissingEval =>
      if CountKind(events, MODEL) > 0 && CountKind(events, EVAL) == 0 then Some(NoEval) else None
    case MissingAgentRun =>
      if CountKind(events, RUN) > 0 then None
      else if CountKind(events, TOOL) > 0 then Some(ToolCallsWithoutRun)
      else if AgenticText(app, events, t) then Some(TermWithoutRun)
      else None
    case OperationalErrors =>
      if CountRuntimeErrors(events) > 0 then Some(Errors(CountRuntimeErrors(events))) else None
    case FailedEval =>
      if CountErrors(events, EVAL) > 0 then Some(FailedEvals(CountErrors(events, EVAL))) else None
    case DeliveryNotDurable =>
      if Flagged(events) != [] then Some(DeliverySummary(Flagged(events))) else None
  }

  /** One row of the GROUP BY over event types. */
  datatype Group = Group(kind: string, n: nat, errors: nat)

  datatype Columns = Columns(groups: seq<Group>, providers: seq<string>, useCases: seq<string>)

  function GroupCount(groups: seq<Group>, kind: string): nat {
    if groups == [] then 0 else if groups[0].kind == kind then groups[0].n else GroupCount(groups[1..], kind)
  }

  function GroupErrors(groups: seq<Group>, kind: string): nat {
    if groups == [] then 0 else if groups[0].kind == kind then groups[0].errors else GroupErrors(groups[1..], kind)
  }

  function ErrorsTotal(groups: seq<Group>): nat {
    if groups == [] then 0
    else (if groups[0].kind != EVAL then groups[0].errors else 0) + ErrorsTotal(groups[1..])
  }

  /** `_assess_rules_from_columns`: what the aggregates say; delivery is read from the batch in memory. */
  function ColumnSummary(signal: Signal, app: string, c: Columns, batch: seq<Event>, t: Text): Option<Summary> {
    match signal
    case ProviderDependency => if c.providers != [] then Some(Providers(JoinComma(c.providers))) else None
    case MissingGuardrail =>
      if GroupCount(c.groups, MODEL) > 0 && GroupCount(c.groups, GUARDRAIL) == 0 then Some(NoGuardrail) else None
    case MissingEval =>
      if GroupCount(c.groups, MODEL) > 0 && GroupCount(c.groups, EVAL) == 0 then Some(NoEval) else None
    case MissingAgentRun =>
      if GroupCount(c.groups, RUN) > 0 then None
      else if GroupCount(c.groups, TOOL) > 0 then Some(ToolCallsWithoutRun)
      else if Found(Lower(Join([app] + c.useCases), t.lower), t.word) then Some(TermWithoutRun)
      else None
    case OperationalErrors => if ErrorsTotal(c.groups) > 0 then Some(Errors(ErrorsTotal(c.groups))) else None
    case FailedEval => if GroupErrors(c.groups, EVAL) > 0 then Some(FailedEvals(GroupErrors(c.groups, EVAL))) else None
    case DeliveryNotDurable =>
      if Flagged(batch) != [] then Some(DeliverySummary(Flagged(batch))) else None
  }

  function Kinds(groups: seq<Group>): set<string> {
    set g | g in groups :: g.kind
  }

  /** What the queries return over the events' columns: one group per event type, the distinct non-empty
      providers of model calls in order, and the distinct non-empty use cases in any order. */
  ghost predicate IsAggregate(c: Columns, events: seq<Event>) {
    && (forall i, j :: 0 <= i < j < |c.groups| ==> c.groups[i].kind != c.groups[j].kind)
    && (forall g <- c.groups :: g.n == CountKind(events, g.kind) && g.errors == CountErrors(events, g.kind))
    && (forall e <- events :: e.kind in Kinds(c.groups))
    && c.providers == Sorted(NamedProviders(events) - {""})
    && (forall u :: u in c.useCases <==> u != "" && u in UseCases(events))
  }

  // ----- what they say -----

  lemma {:induction false} CountsAreExistences(events: seq<Event>, kind: string)
    ensures CountKind(events, kind) > 0 <==> exists e <- events :: e.kind == kind
    ensures Flagged(events) != [] <==> exists e <- events :: Undurable(e)
  {
    if events != [] {
      CountsAreExistences(events[1..], kind);
      assert forall e :: e in events <==> e == events[0] || e in events[1..];
    }
  }

  /** What each signal is raised for, in the events themselves. */
  lemma ScanSpeaksOfTheEvents(app: string, events: seq<Event>, t: Text)
    ensures var models := exists e <- events :: e.kind == "model.call";
      && (ScanSummary(ProviderDependency, app, events, t).Some?
          <==> exists e <- events :: e.kind == "model.call" && e.provider.Some?)
      && (ScanSummary(MissingGuardrail, app, events, t) == Some(NoGuardrail)
          <==> models && forall e <- events :: e.kind != "guardrail.decision")
      && (ScanSummary(MissingEval, app, events, t) == Some(NoEval)
          <==> models && forall e <- events :: e.kind != "eval.result")
      && (ScanSummary(MissingAgentRun, app, events, t) == Some(ToolCallsWithoutRun)
          <==> (forall e <- events :: e.kind != "agent.run") && exists e <- events :: e.kind == "tool.call")
      && (ScanSummary(MissingAgentRun, app, events, t) == Some(TermWithoutRun)
          <==> (forall e <- events :: e.kind != "agent.run" && e.kind != "tool.call") && AgenticText(app, events, t))
  {
    hide AgenticText, Sorted;
    CountsAreExistences(events, MODEL);
    CountsAreExistences(events, GUARDRAIL);
    CountsAreExistences(events, EVAL);
    CountsAreExistences(events, RUN);
    CountsAreExistences(events, TOOL);
    ProvidersAreNamed(events);
  }

  /** ... and how many failures it counts. */
  lemma ScanSpeaksOfFailures(app: string, events: seq<Event>, t: Text)
    ensures ScanSummary(OperationalErrors, app, events, t)
         == if Failures(events) != {} then Some(Errors(|Failures(events)|)) else None
    ensures ScanSummary(FailedEval, app, events, t)
         == if FailedEvalsOf(events) != {} then Some(FailedEvals(|FailedEvalsOf(events)|)) else None
    ensures ScanSummary(DeliveryNotDurable, app, events, t).Some?
         <==> exists e <- events :: e.kind == "sdk.health" && (e.dropped > 0 || e.spoolConfigured == Some(false))
  {
    hide AgenticText;
    CountsAreExistences(events, EVAL);
    CountsAreSizes(events);
  }

  /** A delivery finding tells the most events any report dropped, or that none was and no spool is set. */
  lemma {:induction false} MostDroppedIsMost(events: seq<Event>)
    requires events != []
    ensures exists e <- events :: e.dropped == MostDropped(events)
    ensures forall e <- events :: e.dropped <= MostDropped(events)
  {
    assert forall e :: e in events <==> e == events[0] || e in events[1..];
    if |events| > 1 { MostDroppedIsMost(events[1..]); }
  }

  /** Where the runtime errors are. */
  function Failures(events: seq<Event>): set<int> {
    set i | 0 <= i < |events| && events[i].error && events[i].kind != "eval.result"
  }

  function FailedEvalsOf(events: seq<Event>): set<int> {
    set i | 0 <= i < |events| && events[i].error && events[i].kind == "eval.result"
  }

  lemma {:induction false} CountedAtTheEnd(events: seq<Event>)
    requires events != []
    ensures var n := |events| - 1;
      && CountRuntimeErrors(events)
         == CountRuntimeErrors(events[..n]) + (if events[n].error && events[n].kind != EVAL then 1 else 0)
      && CountErrors(events, EVAL)
         == CountErrors(events[..n], EVAL) + (if events[n].error && events[n].kind == EVAL then 1 else 0)
  {
    var n := |events| - 1;
    if n > 0 {
      CountedAtTheEnd(events[1..]);
      assert events[1..][..n - 1] == events[..n][1..];
    }
  }

  lemma OneMoreFailure(events: seq<Event>)
    requires events != []
    ensures var n := |events| - 1;
      && |Failures(events)| == |Failures(events[..n])| + (if events[n].error && events[n].kind != EVAL then 1 else 0)
      && |FailedEvalsOf(events)|
         == |FailedEvalsOf(events[..n])| + (if events[n].error && events[n].kind == EVAL then 1 else 0)
  {
    var n := |events| - 1;
    var e := events[n];
    assert Failures(events) == Failures(events[..n]) + if e.error && e.kind != EVAL then {n} else {};
    assert FailedEvalsOf(events) == FailedEvalsOf(events[..n]) + if e.error && e.kind == EVAL then {n} else {};
  }

  lemma NothingFails()
    ensures CountRuntimeErrors([]) == |Failures([])| && CountErrors([], EVAL) == |FailedEvalsOf([])|
  {
  }

  lemma {:induction false} CountsAreSizes(events: seq<Event>)
    ensures CountRuntimeErrors(events) == |Failures(events)|
    ensures CountErrors(events, EVAL) == |FailedEvalsOf(events)|
  {
    hide CountRuntimeErrors, CountErrors, Failures, FailedEvalsOf;
    if events == [] {
      NothingFails();
    } else {
      CountsAreSizes(events[..|events| - 1]);
      CountedAtTheEnd(events);
      OneMoreFailure(events);
    }
  }

  lemma ProvidersAreNamed(events: seq<Event>)
    ensures NamedProviders(events) != {} <==> exists e <- events :: e.kind == "model.call" && e.provider.Some?
  {
    if e :| e in events && e.kind == "model.call" && e.provider.Some? {
      assert e.provider.value in NamedProviders(events);
    }
  }

  // ----- they agree -----

  lemma {:induction false} GroupsCount(groups: seq<Group>, events: seq<Event>, kind: string)
    requires forall g <- groups :: g.n == CountKind(events, g.kind) && g.errors == CountErrors(events, g.kind)
    requires kind !in Kinds(groups) ==> CountKind(events, kind) == 0 && CountErrors(events, kind) == 0
    ensures GroupCount(groups, kind) == CountKind(events, kind)
    ensures GroupErrors(groups, kind) == CountErrors(events, kind)
  {
    if groups != [] && groups[0].kind != kind {
      if kind in Kinds(groups) {
        var g :| g in groups && g.kind == kind;
        assert g in groups[1..];
      }
      GroupsCount(groups[1..], events, kind);
    }
  }

  lemma {:induction false} NoneOfKind(events: seq<Event>, kind: string)
    requires forall e <- events :: e.kind != kind
    ensures CountKind(events, kind) == 0 && CountErrors(events, kind) == 0
  {
    if events != [] { NoneOfKind(events[1..], kind); }
  }

  /** Runtime errors among some event types. */
  function CountErrorsAmong(events: seq<Event>, kinds: set<string>): nat {
    if events == [] then 0
    else (if events[0].error && events[0].kind != EVAL && events[0].kind in kinds then 1 else 0)
         + CountErrorsAmong(events[1..], kinds)
  }

  lemma {:induction false} OneMoreKind(events: seq<Event>, kinds: set<string>, kind: string)
    requires kind !in kinds
    ensures CountErrorsAmong(events, kinds + {kind})
            == CountErrorsAmong(events, kinds) + if kind != EVAL then CountErrors(events, kind) else 0
  {
    if events != [] { OneMoreKind(events[1..], kinds, kind); }
  }

  lemma {:induction false} AllKinds(events: seq<Event>, kinds: set<string>)
    requires forall e <- events :: e.kind in kinds
    ensures CountErrorsAmong(events, kinds) == CountRuntimeErrors(events)
  {
    if events != [] { AllKinds(events[1..], kinds); }
  }

  lemma {:induction false} NoKinds(events: seq<Event>)
    ensures CountErrorsAmong(events, {}) == 0
  {
    if events != [] { NoKinds(events[1..]); }
  }

  /** Summing the groups' errors counts each runtime error once. */
  lemma {:induction false} GroupsTotal(groups: seq<Group>, events: seq<Event>)
    requires forall i, j :: 0 <= i < j < |groups| ==> groups[i].kind != groups[j].kind
    requires forall g <- groups :: g.errors == CountErrors(events, g.kind)
    ensures ErrorsTotal(groups) == CountErrorsAmong(events, Kinds(groups))
  {
    if groups == [] {
      assert Kinds(groups) == {};
      NoKinds(events);
    } else {
      GroupsTotal(groups[1..], events);
      assert Kinds(groups) == Kinds(groups[1..]) + {groups[0].kind};
      OneMoreKind(events, Kinds(groups[1..]), groups[0].kind);
    }
  }

  lemma UseCasesAgree(app: string, c: Columns, events: seq<Event>, t: Text)
    requires IsAggregate(c, events) && TextOk(t)
    ensures AgenticText(app, events, t) <==> Found(Lower(Join([app] + c.useCases), t.lower), t.word)
  {
    hide Found, Lower;
    var all := UseCases(events);
    var a, b := [app] + all, [app] + c.useCases;
    SameTextsSameFindingInLowerCase(a, b, t.lower, t.word);
    if all == [] {
      SameTextsSameFindingInLowerCase([app, ""], a, t.lower, t.word);
    } else {
      assert Join([app, Join(all)]) == app + " " + Join(all) by { assert [app, Join(all)][1..] == [Join(all)]; }
      assert Join(a) == app + " " + Join(all) by { assert a[1..] == all; }
    }
  }

  /** Over one event list the counts agree. */
  lemma {:induction false} CountsAgree(c: Columns, events: seq<Event>)
    requires IsAggregate(c, events)
    ensures forall kind :: GroupCount(c.groups, kind) == CountKind(events, kind)
    ensures forall kind :: GroupErrors(c.groups, kind) == CountErrors(events, kind)
    ensures ErrorsTotal(c.groups) == CountRuntimeErrors(events)
  {
    forall kind
      ensures GroupCount(c.groups, kind) == CountKind(events, kind)
      ensures GroupErrors(c.groups, kind) == CountErrors(events, kind)
    {
      if kind !in Kinds(c.groups) { NoneOfKind(events, kind); }
      GroupsCount(c.groups, events, kind);
    }
    GroupsTotal(c.groups, events);
    AllKinds(events, Kinds(c.groups));
  }

  lemma SortedWithEmpty(names: set<string>)
    requires "" in names
    ensures Sorted(names) == [""] + Sorted(names - {""})
  {
    var rest := Sorted(names - {""});
    forall x <- names
      ensures x == "" || Less("", x)
    {
    }
    hide Less, Sorted;
    assert IsLeast("", names);
    assert |names - {""}| == |rest|;
    PrependLeast("", rest, names);
    AscendingUnique(Sorted(names), [""] + rest);
  }

  /** Over one event list providers agree exactly when no model call carries an empty provider text. */
  lemma {:induction false} ProvidersAgreeUnlessEmpty(c: Columns, events: seq<Event>)
    requires IsAggregate(c, events)
    ensures var names := NamedProviders(events);
      (if c.providers != [] then Some(Providers(JoinComma(c.providers))) else None)
        == (if names != {} then Some(Providers(JoinComma(Sorted(names)))) else None)
      <==> forall e <- events :: e.kind == MODEL ==> e.provider != Some("")
  {
    var names := NamedProviders(events);
    if "" in names {
      SortedWithEmpty(names);
      var rest := Sorted(names - {""});
      if rest != [] {
        assert ([""] + rest)[1..] == rest;
        assert |JoinComma([""] + rest)| == |JoinComma(rest)| + 2;
      }
    } else {
      assert names - {""} == names;
    }
  }

  // ----- what other applications' health events change -----

  lemma CountsOfFirst(e: Event, rest: seq<Event>, kind: string)
    ensures CountKind([e] + rest, kind) == (if e.kind == kind then 1 else 0) + CountKind(rest, kind)
    ensures CountErrors([e] + rest, kind) == (if e.kind == kind && e.error then 1 else 0) + CountErrors(rest, kind)
    ensures CountRuntimeErrors([e] + rest) == (if e.error && e.kind != EVAL then 1 else 0) + CountRuntimeErrors(rest)
  {
    assert ([e] + rest)[1..] == rest;
  }

  lemma CountsOfNothing(kind: string)
    ensures CountKind([], kind) == CountErrors([], kind) == CountRuntimeErrors([]) == 0
  {
  }

  lemma {:induction false} VisibleSplits(rows: seq<Stored>, app: string, kind: string)
    ensures var all, own, foreign := Visible(rows, app), Own(rows, app), Foreign(rows, app);
      && CountKind(all, kind) == CountKind(own, kind) + CountKind(foreign, kind)
      && CountErrors(all, kind) == CountErrors(own, kind) + CountErrors(foreign, kind)
      && CountRuntimeErrors(all) == CountRuntimeErrors(own) + CountRuntimeErrors(foreign)
  {
    hide CountKind, CountErrors, CountRuntimeErrors;
    if rows == [] {
      CountsOfNothing(kind);
    } else {
      VisibleSplits(rows[1..], app, kind);
      var all, own, foreign := Visible(rows[1..], app), Own(rows[1..], app), Foreign(rows[1..], app);
      var e := rows[0].event;
      CountsOfFirst(e, all, kind);
      CountsOfFirst(e, own, kind);
      CountsOfFirst(e, foreign, kind);
      assert [] + all == all && [] + own == own && [] + foreign == foreign;
    }
  }

  lemma {:induction false} ForeignIsHealth(rows: seq<Stored>, app: string)
    ensures forall e <- Foreign(rows, app) :: e.kind == HEALTH
  {
    if rows != [] { ForeignIsHealth(rows[1..], app); }
  }

  lemma {:induction false} VisibleHas(rows: seq<Stored>, app: string, e: Event)
    ensures e in Visible(rows, app) <==> e in Own(rows, app) || e in Foreign(rows, app)
  {
    if rows != [] { VisibleHas(rows[1..], app, e); }
  }

  lemma {:induction false} ErrorsAreCounted(events: seq<Event>)
    requires forall e <- events :: e.kind == HEALTH
    ensures CountRuntimeErrors(events) == 0 <==> forall e <- events :: !e.error
  {
    if events != [] { ErrorsAreCounted(events[1..]); }
  }

  lemma {:induction false} FlaggedHas(events: seq<Event>)
    ensures Flagged(events) != [] <==> exists e <- events :: Undurable(e)
  {
    if events != [] { FlaggedHas(events[1..]); }
  }

  lemma SameProviders(rows: seq<Stored>, app: string)
    ensures NamedProviders(Visible(rows, app)) == NamedProviders(Own(rows, app))
  {
    var all, own := Visible(rows, app), Own(rows, app);
    ForeignIsHealth(rows, app);
    forall e
      ensures e in all && e.kind == MODEL <==> e in own && e.kind == MODEL
    {
      VisibleHas(rows, app, e);
    }
  }

  /** The scan reads the foreign use cases too. */
  lemma {:induction false} ForeignText(rows: seq<Stored>, app: string, t: Text)
    requires TextOk(t)
    ensures AgenticText(app, Visible(rows, app), t)
            <==> AgenticText(app, Own(rows, app), t)
                 || exists e <- Foreign(rows, app) :: Found(Lower(e.useCase, t.lower), t.word)
  {
    hide Found, Lower, Join;
    var all, own, foreign := Visible(rows, app), Own(rows, app), Foreign(rows, app);
    var a, b := [app] + UseCases(own), UseCases(foreign);
    TextOfUseCases(app, all, t);
    TextOfUseCases(app, own, t);
    forall text
      ensures text in [app] + UseCases(all) <==> text in a + b
    {
      if i :| 0 <= i < |all| && all[i].useCase == text {
        VisibleHas(rows, app, all[i]);
        InUseCases(own, all[i]);
        InUseCases(foreign, all[i]);
      }
      if i :| 0 <= i < |own| && own[i].useCase == text {
        VisibleHas(rows, app, own[i]);
        InUseCases(all, own[i]);
      }
      if i :| 0 <= i < |foreign| && foreign[i].useCase == text {
        VisibleHas(rows, app, foreign[i]);
        InUseCases(all, foreign[i]);
      }
    }
    SameTextsSameFindingInLowerCase([app] + UseCases(all), a + b, t.lower, t.word);
    FoundInMoreTexts(a, b, t.lower, t.word);
    if e :| e in foreign && Found(Lower(e.useCase, t.lower), t.word) {
      InUseCases(foreign, e);
    }
  }

  lemma InUseCases(events: seq<Event>, e: Event)
    ensures e in events ==> e.useCase in UseCases(events)
  {
    if e in events {
      var i :| 0 <= i < |events| && events[i] == e;
      assert UseCases(events)[i] == e.useCase;
    }
  }

  lemma TextOfUseCases(app: string, events: seq<Event>, t: Text)
    requires TextOk(t)
    ensures AgenticText(app, events, t) <==> Found(Lower(Join([app] + UseCases(events)), t.lower), t.word)
  {
    hide Found, Lower;
    var all := UseCases(events);
    if all == [] {
      SameTextsSameFindingInLowerCase([app, ""], [app], t.lower, t.word);
    } else {
      assert Join([app, Join(all)]) == app + " " + Join(all) by { assert [app, Join(all)][1..] == [Join(all)]; }
      assert Join([app] + all) == app + " " + Join(all) by { assert ([app] + all)[1..] == all; }
    }
  }

  /** When the two evaluators say the same of a signal.  Guardrails, evals and failed evals: always.
      The others are parted by an empty provider text, or by what other applications' health events
      report: an error, an agentic use case that alone decides, an undelivered batch. */
  predicate SameVerdict(signal: Signal, app: string, rows: seq<Stored>, batch: seq<Event>, t: Text) {
    var own, foreign := Own(rows, app), Foreign(rows, app);
    match signal
    case ProviderDependency => forall e <- own :: e.kind == MODEL ==> e.provider != Some("")
    case OperationalErrors => forall e <- foreign :: !e.error
    case MissingAgentRun =>
      || CountKind(own, RUN) > 0 || CountKind(own, TOOL) > 0 || AgenticText(app, own, t)
      || forall e <- foreign :: !Found(Lower(e.useCase, t.lower), t.word)
    case DeliveryNotDurable =>
      var all := Flagged(Visible(rows, app));
      all == [] || (Flagged(batch) != [] && MostDropped(Flagged(batch)) == MostDropped(all))
    case _ => true
  }

  /** For every signal, both evaluators raise the same finding or none if and only if `SameVerdict`. */
  lemma SignalsAgree(signal: Signal, app: string, c: Columns, rows: seq<Stored>, batch: seq<Event>, t: Text)
    requires IsAggregate(c, Own(rows, app)) && TextOk(t) && forall e <- batch :: e in Own(rows, app)
    ensures ColumnSummary(signal, app, c, batch, t) == ScanSummary(signal, app, Visible(rows, app), t)
            <==> SameVerdict(signal, app, rows, batch, t)
  {
    hide IsAggregate, Sorted, JoinComma, AgenticText, Found, Lower, Join, Undurable, Own, Visible, Foreign,
      MostDropped, Flagged, GroupCount, GroupErrors, ErrorsTotal, CountKind, CountErrors, CountRuntimeErrors;
    var own, foreign := Own(rows, app), Foreign(rows, app);
    CountsAgree(c, own);
    match signal
    case ProviderDependency =>
      SameProviders(rows, app);
      ProvidersAgreeUnlessEmpty(c, own);
    case OperationalErrors =>
      VisibleSplits(rows, app, HEALTH);
      ForeignIsHealth(rows, app);
      ErrorsAreCounted(foreign);
    case MissingAgentRun =>
      OnlyHealthIsForeign(rows, app, RUN);
      OnlyHealthIsForeign(rows, app, TOOL);
      ForeignText(rows, app, t);
      UseCasesAgree(app, c, own, t);
    case DeliveryNotDurable =>
      FlaggedIsVisible(rows, app, batch);
    case MissingGuardrail =>
      OnlyHealthIsForeign(rows, app, MODEL);
      OnlyHealthIsForeign(rows, app, GUARDRAIL);
    case MissingEval =>
      OnlyHealthIsForeign(rows, app, MODEL);
      OnlyHealthIsForeign(rows, app, EVAL);
    case FailedEval =>
      OnlyHealthIsForeign(rows, app, EVAL);
  }

  lemma OnlyHealthIsForeign(rows: seq<Stored>, app: string, kind: string)
    requires kind != HEALTH
    ensures CountKind(Visible(rows, app), kind) == CountKind(Own(rows, app), kind)
    ensures CountErrors(Visible(rows, app), kind) == CountErrors(Own(rows, app), kind)
  {
    VisibleSplits(rows, app, kind);
    ForeignIsHealth(rows, app);
    NoneOfKind(Foreign(rows, app), kind);
  }

  lemma FlaggedIsVisible(rows: seq<Stored>, app: string, batch: seq<Event>)
    requires forall e <- batch :: e in Own(rows, app)
    ensures Flagged(batch) != [] ==> Flagged(Visible(rows, app)) != []
  {
    FlaggedHas(batch);
    FlaggedHas(Visible(rows, app));
    if e :| e in batch && Undurable(e) {
      VisibleHas(rows, app, e);
    }
  }

  const PLAIN := Text(c => c, c => 'a' <= c <= 'z')

  const BAD_HEALTH := Event(HEALTH, true, None, "agent", 1, None)

  const OTHERS := [Stored("other", BAD_HEALTH)]

  const NO_COLUMNS := Columns([], [], [])

  /** One health event of another application parts them on three signals at once. */
  lemma {:induction false} ForeignHealthParts()
    ensures IsAggregate(NO_COLUMNS, Own(OTHERS, "app")) && TextOk(PLAIN)
    ensures forall signal | signal in {OperationalErrors, MissingAgentRun, DeliveryNotDurable} ::
              ColumnSummary(signal, "app", NO_COLUMNS, [], PLAIN) == None
    ensures ScanSummary(OperationalErrors, "app", Visible(OTHERS, "app"), PLAIN) == Some(Errors(1))
    ensures ScanSummary(MissingAgentRun, "app", Visible(OTHERS, "app"), PLAIN) == Some(TermWithoutRun)
    ensures ScanSummary(DeliveryNotDurable, "app", Visible(OTHERS, "app"), PLAIN) == Some(Dropped(1))
  {
    hide Lower, Found, Join, Own, Visible, Foreign, Sorted;
    OthersAreForeign();
    assert [BAD_HEALTH][1..] == [];
    CountsOfNothing(RUN);
    CountsOfNothing(TOOL);
    assert Flagged([BAD_HEALTH]) == [BAD_HEALTH] + Flagged([]);
    NothingSorted();
    AgentIsFound();
    ForeignText(OTHERS, "app", PLAIN);
    assert NamedProviders([]) - {""} == {};
    assert ["app"] + NO_COLUMNS.useCases == ["app"] && Join(["app"]) == "app" by { JoinOne("app"); }
    assert BAD_HEALTH in [BAD_HEALTH];
  }

  lemma OthersAreForeign()
    ensures Own(OTHERS, "app") == [] && Visible(OTHERS, "app") == Foreign(OTHERS, "app") == [BAD_HEALTH]
  {
    assert OTHERS[1..] == [];
    var none: seq<Stored> := [];
    assert Own(none, "app") == Visible(none, "app") == Foreign(none, "app") == [];
  }

  lemma JoinOne(text: string)
    ensures Join([text]) == text
  {
  }

  lemma NothingSorted()
    ensures Sorted({}) == []
  {
  }

  lemma AgentIsFound()
    ensures Found(Lower("agent", PLAIN.lower), PLAIN.word) && !Found(Lower("app", PLAIN.lower), PLAIN.word)
  {
    assert Lower("agent", PLAIN.lower) == "agent" && Lower("app", PLAIN.lower) == "app";
    assert "agent"[0..5] == "agent";
    assert MatchesAt("agent", 0, 5, PLAIN.word);
    forall i: nat, j: nat | i <= j <= |"app"|
      ensures !IsTerm("app"[i..j], PLAIN.word)
    {
      assert |"app"[i..j]| <= 3;
    }
  }

  // ----- findings -----

  type RuleId = string

  datatype Rule = Rule(id: RuleId, signal: Signal, observe: bool)

  datatype Status = Open | Observed | Decided(decision: string)

  datatype Finding = Finding(status: Status, summary: Summary)

  /** `write_rule_finding`: the evidence is replaced, a human decision is not. */
  function Written(findings: map<RuleId, Finding>, rule: Rule, summary: Summary): map<RuleId, Finding> {
    var computed := if rule.observe then Observed else Open;
    var status := if rule.id in findings && findings[rule.id].status.Decided? then findings[rule.id].status
                  else computed;
    findings[rule.id := Finding(status, summary)]
  }

  /** What an evaluator leaves behind when `says` is its view of each signal. */
  function Raised(findings: map<RuleId, Finding>, rules: seq<Rule>, says: Signal -> Option<Summary>):
      map<RuleId, Finding>
  {
    if rules == [] then findings
    else
      var before := Raised(findings, rules[..|rules| - 1], says);
      var rule := rules[|rules| - 1];
      match says(rule.signal)
      case None => before
      case Some(summary) => Written(before, rule, summary)
  }

  /** Two views that agree on every rule's signal leave the same findings. */
  lemma {:induction false} SameViewsSameFindings(findings: map<RuleId, Finding>, rules: seq<Rule>,
                                                 p: Signal -> Option<Summary>, q: Signal -> Option<Summary>)
    requires forall rule <- rules :: p(rule.signal) == q(rule.signal)
    ensures Raised(findings, rules, p) == Raised(findings, rules, q)
  {
    if rules != [] { SameViewsSameFindings(findings, rules[..|rules| - 1], p, q); }
  }

  /** A decided finding keeps its status under any evaluation, and none is ever withdrawn. */
  lemma {:induction false} DecisionsSurvive(findings: map<RuleId, Finding>, rules: seq<Rule>,
                                            says: Signal -> Option<Summary>, id: RuleId)
    requires id in findings
    ensures id in Raised(findings, rules, says)
    ensures findings[id].status.Decided? ==> Raised(findings, rules, says)[id].status == findings[id].status
  {
    if rules != [] { DecisionsSurvive(findings, rules[..|rules| - 1], says, id); }
  }

  lemma {:induction false} RaisedElsewhere(findings: map<RuleId, Finding>, rules: seq<Rule>,
                                           says: Signal -> Option<Summary>, id: RuleId)
    requires forall rule <- rules :: rule.id != id
    ensures id in Raised(findings, rules, says) <==> id in findings
    ensures id in findings ==> Raised(findings, rules, says)[id] == findings[id]
  {
    if rules != [] { RaisedElsewhere(findings, rules[..|rules| - 1], says, id); }
  }

  predicate Distinct(rules: seq<Rule>) {
    forall i, j :: 0 <= i < j < |rules| ==> rules[i].id != rules[j].id
  }

  /** With distinct rules, a rule's finding is as its signal says: none is written where it says nothing,
      and otherwise it bears that summary and the human decision it had or, without one, the status of its
      rule. */
  lemma {:induction false} FindingsAreAsRaised(findings: map<RuleId, Finding>, rules: seq<Rule>,
                                               says: Signal -> Option<Summary>, i: nat)
    requires Distinct(rules) && i < |rules|
    ensures var raised, rule := Raised(findings, rules, says), rules[i];
      match says(rule.signal)
      case None => (rule.id in raised <==> rule.id in findings) && (rule.id in findings ==> raised[rule.id] == findings[rule.id])
      case Some(summary) =>
        && rule.id in raised && raised[rule.id].summary == summary
        && (if rule.id in findings && findings[rule.id].status.Decided? then
              raised[rule.id].status == findings[rule.id].status
            else raised[rule.id].status == if rule.observe then Observed else Open)
  {
    var n := |rules| - 1;
    if i == n {
      RaisedElsewhere(findings, rules[..n], says, rules[n].id);
    } else {
      FindingsAreAsRaised(findings, rules[..n], says, i);
    }
  }

  /** For any rules and any findings, the column evaluator leaves what the full scan leaves whenever
      every rule's signal has the same verdict; and where the rules' findings are new, only then. */
  lemma EvaluatorsAgree(findings: map<RuleId, Finding>, rules: seq<Rule>, app: string, c: Columns, rows: seq<Stored>,
                        batch: seq<Event>, t: Text)
    requires IsAggregate(c, Own(rows, app)) && TextOk(t) && forall e <- batch :: e in Own(rows, app)
    ensures var byColumns := Raised(findings, rules, signal => ColumnSummary(signal, app, c, batch, t));
      var byScan := Raised(findings, rules, signal => ScanSummary(signal, app, Visible(rows, app), t));
      var same := forall rule <- rules :: SameVerdict(rule.signal, app, rows, batch, t);
      && (same ==> byColumns == byScan)
      && (Distinct(rules) && (forall rule <- rules :: rule.id !in findings) ==> (byColumns == byScan <==> same))
  {
    forall rule <- rules
      ensures ColumnSummary(rule.signal, app, c, batch, t) == ScanSummary(rule.signal, app, Visible(rows, app), t)
              <==> SameVerdict(rule.signal, app, rows, batch, t)
    {
      SignalsAgree(rule.signal, app, c, rows, batch, t);
    }
    hide ColumnSummary, ScanSummary, IsAggregate, SameVerdict, Raised;
    var p := signal => ColumnSummary(signal, app, c, batch, t);
    var q := signal => ScanSummary(signal, app, Visible(rows, app), t);
    if forall rule <- rules :: SameVerdict(rule.signal, app, rows, batch, t) {
      SameViewsSameFindings(findings, rules, p, q);
    } else if Distinct(rules) && forall rule <- rules :: rule.id !in findings {
      var i :| 0 <= i < |rules| && !SameVerdict(rules[i].signal, app, rows, batch, t);
      FindingsAreAsRaised(findings, rules, p, i);
      FindingsAreAsRaised(findings, rules, q, i);
      assert p(rules[i].signal) != q(rules[i].signal);
    }
  }

  class FindingStore {
    var findings: map<RuleId, Finding>

    method WriteFinding(rule: Rule, summary: Summary)
      modifies this
      ensures findings == Written(old(findings), rule, summary)
    {
      var status := if rule.observe then Observed else Open;
      if rule.id in findings && findings[rule.id].status.Decided? { status := findings[rule.id].status; }
      findings := findings[rule.id := Finding(status, summary)];
    }

    /** `assess_risk_rules`. */
    method AssessByScan(app: string, rules: seq<Rule>, rows: seq<Stored>, t: Text)
      modifies this
      ensures findings == Raised(old(findings), rules, signal => ScanSummary(signal, app, Visible(rows, app), t))
    {
      hide Found, Lower, Join, Sorted, JoinComma, Written, Visible;
      var events := Visible(rows, app);
      ghost var says := signal => ScanSummary(signal, app, events, t);
      var names := NamedProviders(events);
      var text := Lower(Join([app, Join(UseCases(events))]), t.lower);
      var errors, failed := CountRuntimeErrors(events), CountErrors(events, EVAL);
      for i := 0 to |rules|
        invariant findings == Raised(old(findings), rules[..i], says)
      {
        var rule := rules[i];
        assert rules[..i + 1][..i] == rules[..i];
        match rule.signal {
          case ProviderDependency =>
            if names != {} { WriteFinding(rule, Providers(JoinComma(Sorted(names)))); }
          case MissingGuardrail =>
            if CountKind(events, MODEL) > 0 && CountKind(events, GUARDRAIL) == 0 { WriteFinding(rule, NoGuardrail); }
          case MissingEval =>
            if CountKind(events, MODEL) > 0 && CountKind(events, EVAL) == 0 { WriteFinding(rule, NoEval); }
          case MissingAgentRun =>
            if CountKind(events, RUN) == 0 {
              if CountKind(events, TOOL) > 0 { WriteFinding(rule, ToolCallsWithoutRun); }
              else if Found(text, t.word) { WriteFinding(rule, TermWithoutRun); }
            }
          case OperationalErrors => if errors > 0 { WriteFinding(rule, Errors(errors)); }
          case FailedEval => if failed > 0 { WriteFinding(rule, FailedEvals(failed)); }
          case DeliveryNotDurable =>
            if Flagged(events) != [] { WriteFinding(rule, DeliverySummary(Flagged(events))); }
        }
      }
      assert rules[..|rules|] == rules;
    }

    /** `_assess_rules_from_columns`, whose result is that of a full scan if every rule's signal has the
        same verdict. */
    method AssessByColumns(app: string, rules: seq<Rule>, c: Columns, batch: seq<Event>, t: Text,
                           ghost rows: seq<Stored>)
      requires IsAggregate(c, Own(rows, app)) && TextOk(t) && forall e <- batch :: e in Own(rows, app)
      modifies this
      ensures findings == Raised(old(findings), rules, signal => ColumnSummary(signal, app, c, batch, t))
      ensures (forall rule <- rules :: SameVerdict(rule.signal, app, rows, batch, t)) ==>
                findings == Raised(old(findings), rules, signal => ScanSummary(signal, app, Visible(rows, app), t))
    {
      hide Found, Lower, Join, Sorted, JoinComma, Written, IsAggregate, SameVerdict, Visible, Own;
      ghost var says := signal => ColumnSummary(signal, app, c, batch, t);
      EvaluatorsAgree(findings, rules, app, c, rows, batch, t);
      var errors := TotalErrors(c.groups);
      var failed := GroupErrors(c.groups, EVAL);
      var text := Lower(Join([app] + c.useCases), t.lower);
      for i := 0 to |rules|
        invariant findings == Raised(old(findings), rules[..i], says)
      {
        var rule := rules[i];
        assert rules[..i + 1][..i] == rules[..i];
        match rule.signal {
          case ProviderDependency =>
            if c.providers != [] { WriteFinding(rule, Providers(JoinComma(c.providers))); }
          case MissingGuardrail =>
            if GroupCount(c.groups, MODEL) > 0 && GroupCount(c.groups, GUARDRAIL) == 0 {
              WriteFinding(rule, NoGuardrail);
            }
          case MissingEval =>
            if GroupCount(c.groups, MODEL) > 0 && GroupCount(c.groups, EVAL) == 0 { WriteFinding(rule, NoEval); }
          case MissingAgentRun =>
            if GroupCount(c.groups, RUN) == 0 {
              if GroupCount(c.groups, TOOL) > 0 { WriteFinding(rule, ToolCallsWithoutRun); }
              else if Found(text, t.word) { WriteFinding(rule, TermWithoutRun); }
            }
          case OperationalErrors => if errors > 0 { WriteFinding(rule, Errors(errors)); }
          case FailedEval => if failed > 0 { WriteFinding(rule, FailedEvals(failed)); }
          case DeliveryNotDurable =>
            if Flagged(batch) != [] { WriteFinding(rule, DeliverySummary(Flagged(batch))); }
        }
      }
      assert rules[..|rules|] == rules;
    }
  }

  method TotalErrors(groups: seq<Group>) returns (total: nat)
    ensures total == ErrorsTotal(groups)
  {
    total := 0;
    var i := |groups|;
    while i > 0
      invariant 0 <= i <= |groups| && total == ErrorsTotal(groups[i..])
      decreases i
    {
      i := i - 1;
      assert groups[i..][1..] == groups[i + 1..];
      if groups[i].kind != EVAL { total := total + groups[i].errors; }
    }
  }

  // ----- evidence delivery over batches -----

  function Flatten(batches: seq<seq<Event>>): seq<Event> {
    if batches == [] then [] else Flatten(batches[..|batches| - 1]) + batches[|batches| - 1]
  }

  /** What a delivery finding says after folding the batches one by one: the last flagged batch's word. */
  function DeliveryAfter(batches: seq<seq<Event>>): Option<Summary> {
    if batches == [] then None
    else
      var flagged := Flagged(batches[|batches| - 1]);
      if flagged != [] then Some(DeliverySummary(flagged)) else DeliveryAfter(batches[..|batches| - 1])
  }

  function LastFlagged(batches: seq<seq<Event>>): seq<Event> {
    if batches == [] then []
    else
      var flagged := Flagged(batches[|batches| - 1]);
      if flagged != [] then flagged else LastFlagged(batches[..|batches| - 1])
  }

  lemma {:induction false} FlaggedOfJoin(a: seq<Event>, b: seq<Event>)
    ensures Flagged(a + b) == Flagged(a) + Flagged(b)
  {
    hide Undurable;
    if a == [] {
      assert a + b == b;
    } else {
      FlaggedOfJoin(a[1..], b);
      var first := if Undurable(a[0]) then [a[0]] else [];
      assert (a + b)[1..] == a[1..] + b;
      assert first + (Flagged(a[1..]) + Flagged(b)) == first + Flagged(a[1..]) + Flagged(b);
    }
  }

  /** Read from the batches that carried the application's events, in any order and repeated, the finding
      is raised when a scan raises it if and only if some own event is flagged or no foreign one is; and
      it says what the scan says if and only if, besides, the last flagged batch holds the largest
      reported drop. */
  lemma {:induction false} DeliveryFromBatches(app: string, rows: seq<Stored>, batches: seq<seq<Event>>, t: Text)
    requires forall e :: e in Flatten(batches) <==> e in Own(rows, app)
    ensures var scan := ScanSummary(DeliveryNotDurable, app, Visible(rows, app), t);
      var alike := (exists e <- Own(rows, app) :: Undurable(e)) || (forall e <- Foreign(rows, app) :: !Undurable(e));
      && ((DeliveryAfter(batches).Some? <==> scan.Some?) <==> alike)
      && (DeliveryAfter(batches) == scan
          <==> alike && MostDropped(LastFlagged(batches)) == MostDropped(Flagged(Visible(rows, app))))
  {
    hide MostDropped, Undurable, Flatten, LastFlagged, DeliveryAfter, Own, Visible, Foreign;
    DeliveryIsLastFlagged(batches);
    FlaggedHas(Flatten(batches));
    FlaggedHas(Visible(rows, app));
    if e :| e in Own(rows, app) && Undurable(e) {
      VisibleHas(rows, app, e);
    }
    if e :| e in Foreign(rows, app) && Undurable(e) {
      VisibleHas(rows, app, e);
    }
    if e :| e in Visible(rows, app) && Undurable(e) {
      VisibleHas(rows, app, e);
    }
  }

  lemma {:induction false} DeliveryIsLastFlagged(batches: seq<seq<Event>>)
    ensures LastFlagged(batches) == [] <==> Flagged(Flatten(batches)) == []
    ensures DeliveryAfter(batches)
            == if LastFlagged(batches) == [] then None else Some(DeliverySummary(LastFlagged(batches)))
  {
    if batches != [] {
      var n := |batches| - 1;
      DeliveryIsLastFlagged(batches[..n]);
      FlaggedOfJoin(Flatten(batches[..n]), batches[n]);
    }
  }
}
