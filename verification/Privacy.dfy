/** The SDK's content boundary with capture off (packages/python-sdk/norinth_logger/privacy.py): what the
    sanitized form of a caller's data can depend on, and what it can contain. */
module Privacy {

  import opened Common

  /** A caller's value; a dictionary is its items in order, keys as their text. */
  datatype Value =
    | Nothing
    | Bool(b: bool) | Int(n: int) | Float(r: real)
    | Text(s: string) | Blob(bytes: string)
    | List(items: seq<Value>) | Tuple(items: seq<Value>)
    | Dict(entries: seq<(string, Value)>)
    | Collection(size: nat, content: string)
    | Object(typeName: string, state: string)

  /** Redaction patterns, `str`, and the keyed fingerprint, as functions. */
  datatype Boundary = Boundary(redact: string -> string, text: Value -> string, hash: Value -> string)

  datatype Out =
    | Label(text: string)
    | Number(value: Value)
    | NoneSummary
    | Summary(typeName: string, hash: string, size: Option<nat>)
    | Nested(fields: map<string, Out>)

  const MAX_CONTEXT_LEN := 256

  const USAGE_DEPTH := 2

  function TypeName(v: Value): string {
    match v
    case Nothing => "NoneType"
    case Bool(_) => "bool"
    case Int(_) => "int"
    case Float(_) => "float"
    case Text(_) => "str"
    case Blob(_) => "bytes"
    case List(_) => "list"
    case Tuple(_) => "tuple"
    case Dict(_) => "dict"
    case Collection(_, _) => "set"
    case Object(name, _) => name
  }

  function SizeOf(v: Value): Option<nat> {
    match v
    case Text(s) => Some(|s|)
    case Blob(bytes) => Some(|bytes|)
    case List(items) => Some(|items|)
    case Tuple(items) => Some(|items|)
    case Dict(entries) => Some(|entries|)
    case Collection(size, _) => Some(size)
    case _ => None
  }

  function Cut(s: string): string {
    if |s| > MAX_CONTEXT_LEN then s[..MAX_CONTEXT_LEN] else s
  }

  /** `summarize_value` with capture off. */
  function Summarize(v: Value, b: Boundary): Out {
    if v == Nothing then NoneSummary else Summary(TypeName(v), b.hash(v), SizeOf(v))
  }

  /** `_scalar_label`. */
  function ScalarLabel(v: Value, b: Boundary): Option<string> {
    if v.Nothing? || v.Dict? || v.List? || v.Tuple? || v.Collection? then None else Some(Cut(b.text(v)))
  }

  function NameOf(key: string, b: Boundary): string {
    Cut(b.redact(key))
  }

  function SanitizeEntry(name: string, v: Value, safe: set<string>, b: Boundary): Out {
    if name in safe && ScalarLabel(v, b).Some? then Label(b.redact(ScalarLabel(v, b).value)) else Summarize(v, b)
  }

  /** `_sanitize_mapping`: later keys win where redacted names collide. */
  function SanitizeMapping(entries: seq<(string, Value)>, safe: set<string>, b: Boundary): map<string, Out> {
    if entries == [] then map[]
    else
      var n := |entries| - 1;
      var name := NameOf(entries[n].0, b);
      SanitizeMapping(entries[..n], safe, b)[name := SanitizeEntry(name, entries[n].1, safe, b)]
  }

  method SanitizeMappingLoop(entries: seq<(string, Value)>, safe: set<string>, b: Boundary)
    returns (sanitized: map<string, Out>)
    ensures sanitized == SanitizeMapping(entries, safe, b)
    ensures LabelsOnlyUnder(sanitized, safe)
  {
    sanitized := map[];
    for i := 0 to |entries|
      invariant sanitized == SanitizeMapping(entries[..i], safe, b) && LabelsOnlyUnder(sanitized, safe)
    {
      assert entries[..i + 1][..i] == entries[..i];
      var (key, value) := entries[i];
      var name := NameOf(key, b);
      if name in safe {
        var text := ScalarLabel(value, b);
        if text.Some? {
          sanitized := sanitized[name := Label(b.redact(text.value))];
          continue;
        }
      }
      sanitized := sanitized[name := Summarize(value, b)];
    }
    assert entries[..|entries|] == entries;
  }

  /** `sanitize_steps`. */
  function SanitizeSteps(steps: seq<Value>, safe: set<string>, b: Boundary): (r: seq<Out>)
    ensures |r| == |steps|
  {
    seq(|steps|, i requires 0 <= i < |steps| =>
      if steps[i].Dict? then Nested(SanitizeMapping(steps[i].entries, safe, b)) else Summarize(steps[i], b))
  }

  predicate IsNumber(v: Value) {
    v.Nothing? || v.Bool? || v.Int? || v.Float?
  }

  /** `sanitize_usage`: numbers pass, dictionaries are entered to a small depth, the rest is summarized. */
  function SanitizeUsage(entries: seq<(string, Value)>, b: Boundary, depth: nat): map<string, Out>
    decreases USAGE_DEPTH - depth, |entries|
  {
    if entries == [] then map[]
    else
      var n := |entries| - 1;
      SanitizeUsage(entries[..n], b, depth)[NameOf(entries[n].0, b) := SanitizeAmount(entries[n].1, b, depth)]
  }

  function SanitizeAmount(v: Value, b: Boundary, depth: nat): Out
    decreases USAGE_DEPTH - depth, 0
  {
    if IsNumber(v) then Number(v)
    else if v.Dict? && depth < USAGE_DEPTH then Nested(SanitizeUsage(v.entries, b, depth + 1))
    else Summarize(v, b)
  }

  method SanitizeUsageLoop(entries: seq<(string, Value)>, b: Boundary, depth: nat) returns (sanitized: map<string, Out>)
    ensures sanitized == SanitizeUsage(entries, b, depth)
    ensures NoLabels(Nested(sanitized))
    decreases USAGE_DEPTH - depth
  {
    UsageHasNoLabels(entries, b, depth);
    sanitized := map[];
    for i := 0 to |entries|
      invariant sanitized == SanitizeUsage(entries[..i], b, depth)
    {
      assert entries[..i + 1][..i] == entries[..i];
      var (key, value) := entries[i];
      var name := NameOf(key, b);
      if IsNumber(value) {
        sanitized := sanitized[name := Number(value)];
      } else if value.Dict? && depth < USAGE_DEPTH {
        var inner := SanitizeUsageLoop(value.entries, b, depth + 1);
        sanitized := sanitized[name := Nested(inner)];
      } else {
        sanitized := sanitized[name := Summarize(value, b)];
      }
    }
    assert entries[..|entries|] == entries;
  }

  // ----- what leaves in the clear -----

  /** Texts of the caller appear only under safe names. */
  predicate LabelsOnlyUnder(fields: map<string, Out>, safe: set<string>) {
    forall name <- fields :: fields[name].Label? ==> name in safe
  }

  /** Nothing but numbers and fingerprints, however deep. */
  predicate NoLabels(out: Out) {
    match out
    case Label(_) => false
    case Number(v) => IsNumber(v)
    case Nested(fields) => forall name <- fields :: NoLabels(fields[name])
    case _ => true
  }

  /** No text rides out with usage accounting, through any nesting. */
  lemma {:induction false} UsageHasNoLabels(entries: seq<(string, Value)>, b: Boundary, depth: nat)
    ensures NoLabels(Nested(SanitizeUsage(entries, b, depth)))
    decreases USAGE_DEPTH - depth, |entries|
  {
    if entries != [] {
      var n := |entries| - 1;
      UsageHasNoLabels(entries[..n], b, depth);
      var v := entries[n].1;
      if !IsNumber(v) && v.Dict? && depth < USAGE_DEPTH { UsageHasNoLabels(v.entries, b, depth + 1); }
      assert NoLabels(SanitizeAmount(v, b, depth));
    }
  }

  /** Entry `i` is the last under its redacted name, so it is the one that leaves. */
  predicate IsLast(entries: seq<(string, Value)>, i: nat, b: Boundary) {
    i < |entries| && forall j :: i < j < |entries| ==> NameOf(entries[j].0, b) != NameOf(entries[i].0, b)
  }

  /** What leaves of usage: a number as the same number, a dictionary as its own usage down to the limit,
      and anything else as its type, fingerprint and size. */
  lemma {:induction false} AmountsLeave(entries: seq<(string, Value)>, b: Boundary, depth: nat, i: nat)
    requires IsLast(entries, i, b)
    ensures var out, name := SanitizeUsage(entries, b, depth), NameOf(entries[i].0, b);
      && name in out
      && match entries[i].1
         case Nothing => out[name] == Number(Nothing)
         case Bool(x) => out[name] == Number(Bool(x))
         case Int(n) => out[name] == Number(Int(n))
         case Float(r) => out[name] == Number(Float(r))
         case Dict(inner) =>
           if depth < 2 then out[name] == Nested(SanitizeUsage(inner, b, depth + 1))
           else out[name] == Summary("dict", b.hash(Dict(inner)), Some(|inner|))
         case v => out[name] == Summary(TypeName(v), b.hash(v), SizeOf(v))
    decreases |entries|
  {
    var n := |entries| - 1;
    if i < n { AmountsLeave(entries[..n], b, depth, i); }
  }

  /** What leaves of a mapping: a scalar under a safe name as its redacted text, cut to 256 characters, and
      anything else as its type, fingerprint and size. */
  lemma {:induction false} EntriesLeave(entries: seq<(string, Value)>, safe: set<string>, b: Boundary, i: nat)
    requires IsLast(entries, i, b)
    ensures var out, name, v := SanitizeMapping(entries, safe, b), NameOf(entries[i].0, b), entries[i].1;
      && name in out
      && (v == Nothing ==> out[name] == NoneSummary)
      && (name in safe && (v.Bool? || v.Int? || v.Float? || v.Text? || v.Blob? || v.Object?) ==>
            exists text :: out[name] == Label(b.redact(text)) && text <= b.text(v)
                           && |text| == if |b.text(v)| > 256 then 256 else |b.text(v)|)
      && (v != Nothing && (name !in safe || v.List? || v.Tuple? || v.Dict? || v.Collection?) ==>
            out[name] == Summary(TypeName(v), b.hash(v), SizeOf(v)))
    decreases |entries|
  {
    var n := |entries| - 1;
    if i < n { EntriesLeave(entries[..n], safe, b, i); }
  }

  // ----- noninterference -----

  /** Two values nobody outside can tell apart but by type, keyed fingerprint and size. */
  predicate Alike(x: Value, y: Value, b: Boundary) {
    (x == Nothing <==> y == Nothing) && TypeName(x) == TypeName(y) && b.hash(x) == b.hash(y) && SizeOf(x) == SizeOf(y)
  }

  function RedactedLabel(v: Value, b: Boundary): Option<string> {
    match ScalarLabel(v, b)
    case None => None
    case Some(text) => Some(b.redact(text))
  }

  /** Equal redacted names; under a safe name equal redacted labels, and elsewhere alike. */
  predicate AlikeEntry(x: (string, Value), y: (string, Value), safe: set<string>, b: Boundary) {
    && NameOf(x.0, b) == NameOf(y.0, b)
    && if NameOf(x.0, b) in safe && (RedactedLabel(x.1, b).Some? || RedactedLabel(y.1, b).Some?)
       then RedactedLabel(x.1, b) == RedactedLabel(y.1, b)
       else Alike(x.1, y.1, b)
  }

  predicate AlikeMappings(p: seq<(string, Value)>, q: seq<(string, Value)>, safe: set<string>, b: Boundary) {
    |p| == |q| && forall i :: 0 <= i < |p| ==> AlikeEntry(p[i], q[i], safe, b)
  }

  /** Two mappings alike to an outsider leave the process as one and the same. */
  lemma {:induction false} MappingsDoNotInterfere(p: seq<(string, Value)>, q: seq<(string, Value)>, safe: set<string>,
                                                  b: Boundary)
    requires AlikeMappings(p, q, safe, b)
    ensures SanitizeMapping(p, safe, b) == SanitizeMapping(q, safe, b)
  {
    if p != [] {
      var n := |p| - 1;
      MappingsDoNotInterfere(p[..n], q[..n], safe, b);
      assert AlikeEntry(p[n], q[n], safe, b);
    }
  }

  predicate AlikeSteps(p: seq<Value>, q: seq<Value>, safe: set<string>, b: Boundary) {
    && |p| == |q|
    && forall i :: 0 <= i < |p| ==>
         || (p[i].Dict? && q[i].Dict? && AlikeMappings(p[i].entries, q[i].entries, safe, b))
         || (!p[i].Dict? && !q[i].Dict? && Alike(p[i], q[i], b))
  }

  lemma StepsDoNotInterfere(p: seq<Value>, q: seq<Value>, safe: set<string>, b: Boundary)
    requires AlikeSteps(p, q, safe, b)
    ensures SanitizeSteps(p, safe, b) == SanitizeSteps(q, safe, b)
  {
    forall i | 0 <= i < |p|
      ensures SanitizeSteps(p, safe, b)[i] == SanitizeSteps(q, safe, b)[i]
    {
      if p[i].Dict? { MappingsDoNotInterfere(p[i].entries, q[i].entries, safe, b); }
    }
  }

  /** Equal numbers, dictionaries alike to the depth they are entered, and the rest alike. */
  ghost predicate AlikeUsage(p: seq<(string, Value)>, q: seq<(string, Value)>, b: Boundary, depth: nat)
    decreases USAGE_DEPTH - depth
  {
    && |p| == |q|
    && forall i :: 0 <= i < |p| ==>
         && NameOf(p[i].0, b) == NameOf(q[i].0, b)
         && (if IsNumber(p[i].1) || IsNumber(q[i].1) then p[i].1 == q[i].1
             else if depth < USAGE_DEPTH && (p[i].1.Dict? || q[i].1.Dict?) then
               && p[i].1.Dict? && q[i].1.Dict? && AlikeUsage(p[i].1.entries, q[i].1.entries, b, depth + 1)
             else Alike(p[i].1, q[i].1, b))
  }

  /** And so does nested usage, down to its depth limit. */
  lemma {:induction false} UsageDoesNotInterfere(p: seq<(string, Value)>, q: seq<(string, Value)>, b: Boundary,
                                                 depth: nat)
    requires AlikeUsage(p, q, b, depth)
    ensures SanitizeUsage(p, b, depth) == SanitizeUsage(q, b, depth)
    decreases USAGE_DEPTH - depth, |p|
  {
    if p != [] {
      var n := |p| - 1;
      UsageDoesNotInterfere(p[..n], q[..n], b, depth);
      var x, y := p[n].1, q[n].1;
      if !IsNumber(x) && !IsNumber(y) && depth < USAGE_DEPTH && x.Dict? {
        UsageDoesNotInterfere(x.entries, y.entries, b, depth + 1);
      }
      assert SanitizeAmount(x, b, depth) == SanitizeAmount(y, b, depth);
    }
  }
}
