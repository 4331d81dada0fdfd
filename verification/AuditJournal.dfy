/** The checkpoint journal (storage/audit_checkpoint.py): a file of sealed records, one a line, kept apart
    from the database. Verification reads it forward in full; an append reads its last line backward. */
module AuditJournal {

  import opened Common
  import opened AuditChain

  datatype Kind = HeadMark | Reconcile(previousEpoch: Epoch, reason: string)

  type Epoch = int

  /** HMAC over the record without its seal, as a free constructor. */
  datatype Seal = NoSeal | SealOf(key: Key, record: Checkpoint) | OtherSeal(text: string)

  datatype Checkpoint = Checkpoint(kind: Kind, epoch: Epoch, count: int, headHash: Hash, createdAt: int,
                                   keyId: KeyId, previousSeal: Seal, anchoredFrom: int)

  datatype Sealed = Sealed(record: Checkpoint, seal: Seal)

  datatype JournalFault = Unreadable | SealChain | SealWrong | Order

  datatype Loaded = Good(records: seq<Sealed>) | Bad(fault: JournalFault)

  // ----- reading forward -----

  function LastSeal(records: seq<Sealed>): Seal {
    if records == [] then NoSeal else records[|records| - 1].seal
  }

  predicate Authentic(s: Sealed, ring: map<KeyId, Key>) {
    s.record.keyId in ring && s.seal == SealOf(ring[s.record.keyId], s.record)
  }

  /** A head mark advances its epoch; a reconciliation opens another one after it. */
  predicate InOrder(previous: Checkpoint, next: Checkpoint) {
    match next.kind
    case Reconcile(previousEpoch, _) => next.epoch != previous.epoch && previousEpoch == previous.epoch
    case HeadMark => next.epoch == previous.epoch && next.count > previous.count
  }

  /** The verdict on one more line after sound records. */
  function Accept(records: seq<Sealed>, line: Option<Sealed>, ring: map<KeyId, Key>): Loaded {
    if line == None then Bad(Unreadable)
    else
      var s := line.value;
      if s.record.keyId !in ring || s.record.previousSeal != LastSeal(records) then Bad(SealChain)
      else if s.seal != SealOf(ring[s.record.keyId], s.record) then Bad(SealWrong)
      else if records != [] && !InOrder(records[|records| - 1].record, s.record) then Bad(Order)
      else Good(records + [s])
  }

  function Load(lines: seq<Option<Sealed>>, ring: map<KeyId, Key>): Loaded {
    if lines == [] then Good([])
    else
      var before := Load(lines[..|lines| - 1], ring);
      if before.Bad? then before else Accept(before.records, lines[|lines| - 1], ring)
  }

  predicate LinkOk(records: seq<Sealed>, i: nat, ring: map<KeyId, Key>)
    requires i < |records|
  {
    && Authentic(records[i], ring)
    && records[i].record.previousSeal == (if i == 0 then NoSeal else records[i - 1].seal)
    && (i > 0 ==> InOrder(records[i - 1].record, records[i].record))
  }

  /** What a sound journal is: linked by seals, each authentic, each in order. */
  ghost predicate SoundJournal(records: seq<Sealed>, ring: map<KeyId, Key>) {
    forall i :: 0 <= i < |records| ==> LinkOk(records, i, ring)
  }

  /** The lines read are these records, one each. */
  ghost predicate Reads(lines: seq<Option<Sealed>>, records: seq<Sealed>) {
    |lines| == |records| && forall i :: 0 <= i < |lines| ==> lines[i] == Some(records[i])
  }

  lemma SoundPrefix(records: seq<Sealed>, n: nat, ring: map<KeyId, Key>)
    requires SoundJournal(records, ring) && n <= |records|
    ensures SoundJournal(records[..n], ring)
  {
    forall i | 0 <= i < n
      ensures LinkOk(records[..n], i, ring)
    {
      assert LinkOk(records, i, ring);
    }
  }

  lemma SoundExtends(records: seq<Sealed>, s: Sealed, ring: map<KeyId, Key>)
    requires SoundJournal(records, ring) && Authentic(s, ring) && s.record.previousSeal == LastSeal(records)
    requires records != [] ==> InOrder(records[|records| - 1].record, s.record)
    ensures SoundJournal(records + [s], ring)
  {
    var longer := records + [s];
    forall i | 0 <= i < |longer|
      ensures LinkOk(longer, i, ring)
    {
      if i < |records| { assert LinkOk(records, i, ring); }
    }
  }

  /** Loading accepts only sound journals, and returns them whole. */
  lemma {:induction false} LoadIsSound(lines: seq<Option<Sealed>>, ring: map<KeyId, Key>)
    requires Load(lines, ring).Good?
    ensures SoundJournal(Load(lines, ring).records, ring) && Reads(lines, Load(lines, ring).records)
  {
    hide InOrder, SoundJournal;
    if lines == [] {
      assert SoundJournal([], ring) by { NoRecordsAreSound(ring); }
    } else {
      var n := |lines| - 1;
      LoadIsSound(lines[..n], ring);
      var before := Load(lines[..n], ring).records;
      SoundExtends(before, lines[n].value, ring);
      assert forall i :: 0 <= i < n ==> lines[..n][i] == lines[i];
    }
  }

  lemma NoRecordsAreSound(ring: map<KeyId, Key>)
    ensures SoundJournal([], ring)
  {
  }

  /** And it accepts every sound journal. */
  lemma {:induction false} SoundJournalsLoad(lines: seq<Option<Sealed>>, records: seq<Sealed>, ring: map<KeyId, Key>)
    requires SoundJournal(records, ring) && Reads(lines, records)
    ensures Load(lines, ring) == Good(records)
    decreases |records|
  {
    if records != [] {
      var n := |records| - 1;
      assert LinkOk(records, n, ring);
      SoundPrefix(records, n, ring);
      hide SoundJournal, InOrder;
      assert lines[n] == Some(records[n]);
      assert Reads(lines[..n], records[..n]);
      SoundJournalsLoad(lines[..n], records[..n], ring);
      assert records == records[..n] + [records[n]];
    }
  }

  /** Between reconciliations the counts of a sound journal strictly increase within one epoch. */
  lemma {:induction false} CountsIncrease(records: seq<Sealed>, ring: map<KeyId, Key>, i: nat, j: nat)
    requires SoundJournal(records, ring) && i < j < |records|
    requires forall k :: i < k <= j ==> records[k].record.kind == HeadMark
    ensures records[i].record.epoch == records[j].record.epoch && records[i].record.count < records[j].record.count
    decreases j
  {
    assert LinkOk(records, j, ring);
    if i < j - 1 { CountsIncrease(records, ring, i, j - 1); }
  }

  // ----- the text -----

  /** Where the line starting at `start` ends: at its newline, or at the end of the text. */
  function LineEnd(text: string, start: nat): (end: nat)
    requires start <= |text|
    ensures start <= end <= |text| && (end < |text| ==> text[end] == '\n')
    ensures forall i :: start <= i < end ==> text[i] != '\n'
    decreases |text| - start
  {
    if start == |text| || text[start] == '\n' then start else LineEnd(text, start + 1)
  }

  function LineAt(text: string, start: nat): string
    requires start <= |text|
  {
    text[start..LineEnd(text, start)]
  }

  function NextStart(text: string, start: nat): (next: nat)
    requires start < |text|
    ensures start < next <= |text|
  {
    var end := LineEnd(text, start);
    if end == |text| then end else end + 1
  }

  /** The lines a reader of the file iterates over, without their newline. */
  function LinesFrom(text: string, start: nat): seq<string>
    requires start <= |text|
    decreases |text| - start
  {
    if start == |text| then [] else [LineAt(text, start)] + LinesFrom(text, NextStart(text, start))
  }

  function Lines(text: string): seq<string> {
    LinesFrom(text, 0)
  }

  function ParseAll(lines: seq<string>, parse: string -> Option<Sealed>): (r: seq<Option<Sealed>>)
    ensures |r| == |lines| && forall i :: 0 <= i < |lines| ==> r[i] == parse(lines[i])
  {
    seq(|lines|, i requires 0 <= i < |lines| => parse(lines[i]))
  }

  datatype ReadResult = Unavailable | KeyUnavailable | Invalid(fault: JournalFault) | Records(records: seq<Sealed>)

  function ReadOf(file: Option<string>, ring: map<KeyId, Key>, parse: string -> Option<Sealed>): ReadResult {
    if file == None then Unavailable
    else if ring == map[] then KeyUnavailable
    else
      match Load(ParseAll(Lines(file.value), parse), ring)
      case Bad(fault) => Invalid(fault)
      case Good(records) => if records == [] then Unavailable else Records(records)
  }

  /** The checks on one line, in order. */
  method CheckLine(records: seq<Sealed>, previousSeal: Seal, line: Option<Sealed>, ring: map<KeyId, Key>)
    returns (loaded: Loaded)
    requires previousSeal == LastSeal(records)
    ensures loaded == Accept(records, line, ring)
  {
    if line == None { return Bad(Unreadable); }
    var s := line.value;
    if s.record.keyId !in ring || s.record.previousSeal != previousSeal { return Bad(SealChain); }
    if s.seal != SealOf(ring[s.record.keyId], s.record) { return Bad(SealWrong); }
    if records != [] {
      var previous := records[|records| - 1].record;
      match s.record.kind {
        case Reconcile(previousEpoch, _) =>
          if s.record.epoch == previous.epoch || previousEpoch != previous.epoch { return Bad(Order); }
        case HeadMark =>
          if s.record.epoch != previous.epoch || s.record.count <= previous.count { return Bad(Order); }
      }
    }
    return Good(records + [s]);
  }

  /** `read_checkpoints`: line by line, keeping the records so far and the seal the next must link to. */
  method ReadCheckpoints(file: Option<string>, ring: map<KeyId, Key>, parse: string -> Option<Sealed>)
    returns (result: ReadResult)
    ensures result == ReadOf(file, ring, parse)
    ensures result.Records? ==> SoundJournal(result.records, ring) && result.records != []
  {
    if file == None { return Unavailable; }
    if ring == map[] { return KeyUnavailable; }
    var text := file.value;
    LoadFromIsLoad(text, 0, ParseAll(Lines(text), parse), 0, ring, parse);
    hide Accept, Load, InOrder;
    var records: seq<Sealed>, previousSeal, at := [], NoSeal, 0;
    while at < |text|
      invariant 0 <= at <= |text| && previousSeal == LastSeal(records)
      invariant Load(ParseAll(Lines(text), parse), ring) == LoadFrom(text, at, records, ring, parse)
      decreases |text| - at
    {
      var loaded := CheckLine(records, previousSeal, parse(LineAt(text, at)), ring);
      if loaded.Bad? { return Invalid(loaded.fault); }
      records := loaded.records;
      previousSeal := LastSeal(records);
      at := NextStart(text, at);
    }
    LoadIsSound(ParseAll(Lines(text), parse), ring);
    if records == [] { return Unavailable; }
    return Records(records);
  }

  /** What the reader makes of the rest of the text after the records so far. */
  function LoadFrom(text: string, at: nat, records: seq<Sealed>, ring: map<KeyId, Key>, parse: string -> Option<Sealed>):
      Loaded
    requires at <= |text|
    decreases |text| - at
  {
    if at == |text| then Good(records)
    else
      var loaded := Accept(records, parse(LineAt(text, at)), ring);
      if loaded.Bad? then loaded else LoadFrom(text, NextStart(text, at), loaded.records, ring, parse)
  }

  lemma {:induction false} LoadFromIsLoad(text: string, at: nat, lines: seq<Option<Sealed>>, n: nat,
                                          ring: map<KeyId, Key>, parse: string -> Option<Sealed>)
    requires at <= |text| && n <= |lines| && ParseAll(LinesFrom(text, at), parse) == lines[n..]
    requires Load(lines[..n], ring).Good?
    ensures LoadFrom(text, at, Load(lines[..n], ring).records, ring, parse) == Load(lines, ring)
    decreases |text| - at
  {
    hide Accept, LineEnd, LineAt, NextStart;
    if at == |text| {
      assert lines[..n] == lines;
    } else {
      LoadOneMore(text, at, lines, n, ring, parse);
      if Load(lines[..n + 1], ring).Good? {
        LoadFromIsLoad(text, NextStart(text, at), lines, n + 1, ring, parse);
      }
    }
  }

  lemma {:induction false} LoadOneMore(text: string, at: nat, lines: seq<Option<Sealed>>, n: nat, ring: map<KeyId, Key>,
                                       parse: string -> Option<Sealed>)
    requires at < |text| && n <= |lines| && ParseAll(LinesFrom(text, at), parse) == lines[n..]
    requires Load(lines[..n], ring).Good?
    ensures n < |lines| && lines[n] == parse(LineAt(text, at))
    ensures Load(lines[..n + 1], ring) == Accept(Load(lines[..n], ring).records, lines[n], ring)
    ensures Load(lines[..n + 1], ring).Bad? ==> Load(lines, ring) == Load(lines[..n + 1], ring)
    ensures ParseAll(LinesFrom(text, NextStart(text, at)), parse) == lines[n + 1..]
  {
    hide Accept, LineEnd, LineAt, NextStart;
    assert lines[n] == lines[n..][0];
    assert lines[n + 1..] == lines[n..][1..];
    assert lines[..n + 1][..n] == lines[..n];
    LoadIsFirstFault(lines, n, ring);
  }

  /** The first fault stands, whatever follows. */
  lemma {:induction false} LoadIsFirstFault(lines: seq<Option<Sealed>>, n: nat, ring: map<KeyId, Key>)
    requires n < |lines|
    ensures Load(lines[..n + 1], ring).Bad? ==> Load(lines, ring) == Load(lines[..n + 1], ring)
    decreases |lines|
  {
    if n == |lines| - 1 {
      assert lines[..n + 1] == lines;
    } else {
      var shorter := lines[..|lines| - 1];
      assert shorter[..n + 1] == lines[..n + 1];
      LoadIsFirstFault(shorter, n, ring);
    }
  }

  // ----- reading the last line backward -----

  datatype Latest = NothingYet | Found(s: Sealed) | Raised

  /** The start of the line that ends just before the final newline. */
  function LastStart(text: string, position: int): (start: nat)
    requires -1 <= position < |text|
    ensures start <= position + 1 && (start > 0 ==> text[start - 1] == '\n')
    ensures forall i :: start <= i <= position ==> text[i] != '\n'
  {
    if position < 0 || text[position] == '\n' then position + 1 else LastStart(text, position - 1)
  }

  function LatestOf(file: Option<string>, ring: map<KeyId, Key>, parse: string -> Option<Sealed>): Latest {
    if file == None || file.value == "" then NothingYet
    else
      var text := file.value;
      var end := |text|;
      if text[end - 1] != '\n' then Raised
      else
        var line := parse(text[LastStart(text, end - 2)..end - 1]);
        if line == None || !Authentic(line.value, ring) then Raised else Found(line.value)
  }

  /** `latest_checkpoint`: scan back from the byte before the final newline. */
  method LatestCheckpoint(file: Option<string>, ring: map<KeyId, Key>, parse: string -> Option<Sealed>)
    returns (latest: Latest)
    ensures latest == LatestOf(file, ring, parse)
  {
    if file == None || |file.value| == 0 { return NothingYet; }
    var text := file.value;
    var end := |text|;
    if text[end - 1] != '\n' { return Raised; }
    var position := end - 2;
    while position >= 0
      invariant -1 <= position <= end - 2
      invariant LastStart(text, position) == LastStart(text, end - 2)
      decreases position
    {
      if text[position] == '\n' { break; }
      position := position - 1;
    }
    var line := parse(text[position + 1..][..end - position - 2]);
    assert text[position + 1..][..end - position - 2] == text[position + 1..end - 1];
    if line == None || !Authentic(line.value, ring) { return Raised; }
    return Found(line.value);
  }

  lemma {:induction false} LastLineFrom(text: string, start: nat)
    requires start < |text| && text[|text| - 1] == '\n'
    requires start == 0 || text[start - 1] == '\n'
    ensures var lines := LinesFrom(text, start);
      lines != [] && lines[|lines| - 1] == text[LastStart(text, |text| - 2)..|text| - 1]
    decreases |text| - start
  {
    if NextStart(text, start) == |text| {
      LastLineIs(text, start);
    } else {
      var next := NextStart(text, start);
      assert text[next - 1] == '\n';
      hide LineEnd, LineAt, LastStart, NextStart;
      LastLineFrom(text, next);
    }
  }

  lemma LastLineIs(text: string, start: nat)
    requires start < |text| && text[|text| - 1] == '\n' && NextStart(text, start) == |text|
    requires start == 0 || text[start - 1] == '\n'
    ensures LineAt(text, start) == text[LastStart(text, |text| - 2)..|text| - 1]
  {
    assert LineEnd(text, start) == |text| - 1;
    assert LastStart(text, |text| - 2) == start;
  }

  /** On a journal the full reader accepts, the backward scan returns its last record exactly when the
      text ends in a newline; after a torn final line it raises instead. */
  lemma LatestIsTheLastRecord(text: string, ring: map<KeyId, Key>, parse: string -> Option<Sealed>)
    requires ReadOf(Some(text), ring, parse).Records?
    ensures var records := ReadOf(Some(text), ring, parse).records;
      && text != "" && records != []
      && (LatestOf(Some(text), ring, parse) == Found(records[|records| - 1]) <==> text[|text| - 1] == '\n')
      && (LatestOf(Some(text), ring, parse) == Raised <==> text[|text| - 1] != '\n')
  {
    assert text == "" ==> Lines(text) == [];
    hide InOrder, SoundJournal, LineEnd, LinesFrom;
    var lines := Lines(text);
    var parsed := ParseAll(lines, parse);
    LoadIsSound(parsed, ring);
    var records := Load(parsed, ring).records;
    hide Load;
    var n := |records| - 1;
    assert parsed[n] == Some(records[n]);
    assert Authentic(records[n], ring) by { LastIsAuthentic(records, ring); }
    if text[|text| - 1] == '\n' {
      LastLineFrom(text, 0);
    }
  }

  lemma LastIsAuthentic(records: seq<Sealed>, ring: map<KeyId, Key>)
    requires SoundJournal(records, ring) && records != []
    ensures Authentic(records[|records| - 1], ring)
  {
    assert LinkOk(records, |records| - 1, ring);
  }

  // ----- writing -----

  function Render(records: seq<Sealed>, render: Sealed -> string): string {
    if records == [] then ""
    else Render(records[..|records| - 1], render) + render(records[|records| - 1]) + "\n"
  }

  /** One line per record, and a record can be read back from its line. */
  ghost predicate RoundTrips(render: Sealed -> string, parse: string -> Option<Sealed>) {
    forall s :: parse(render(s)) == Some(s) && '\n' !in render(s)
  }

  lemma {:induction false} LinesFromAppended(text: string, line: string, start: nat)
    requires start <= |text| && '\n' !in line && (text == "" || text[|text| - 1] == '\n')
    ensures LinesFrom(text + line + "\n", start) == LinesFrom(text, start) + [line]
    decreases |text| - start
  {
    if start == |text| {
      LastLineAppended(text, line);
    } else {
      SameLine(text, text + line + "\n", start);
      hide LineEnd, LineAt, NextStart;
      LinesFromAppended(text, line, NextStart(text, start));
    }
  }

  lemma {:induction false} LastLineAppended(text: string, line: string)
    requires '\n' !in line
    ensures LinesFrom(text + line + "\n", |text|) == [line]
  {
    var longer := text + line + "\n";
    var end := LineEnd(longer, |text|);
    assert longer[|longer| - 1] == '\n';
    assert forall i :: |text| <= i < |longer| - 1 ==> longer[i] == line[i - |text|];
    assert end == |longer| - 1;
    assert longer[|text|..end] == line;
    assert NextStart(longer, |text|) == |longer|;
  }

  lemma SameLine(text: string, longer: string, start: nat)
    requires start < |text| <= |longer| && longer[..|text|] == text && text[|text| - 1] == '\n'
    ensures LineAt(longer, start) == LineAt(text, start) && NextStart(longer, start) == NextStart(text, start)
  {
    assert forall i :: 0 <= i < |text| ==> text[i] == longer[..|text|][i] == longer[i];
    var end := LineEnd(text, start);
    assert end == LineEnd(longer, start) < |text|;
    assert longer[start..end] == text[start..end];
  }

  /** Reading a journal that was only ever appended to gives back the lines that were written. */
  lemma {:induction false} RenderedLines(records: seq<Sealed>, render: Sealed -> string, parse: string -> Option<Sealed>)
    requires RoundTrips(render, parse)
    ensures var text := Render(records, render);
      && (text == "" <==> records == []) && (text != "" ==> text[|text| - 1] == '\n')
      && Lines(text) == RenderEach(records, render)
  {
    if records != [] {
      var n := |records| - 1;
      RenderedLines(records[..n], render, parse);
      assert '\n' !in render(records[n]) by { assert parse(render(records[n])) == Some(records[n]); }
      hide RoundTrips;
      LinesFromAppended(Render(records[..n], render), render(records[n]), 0);
      assert RenderEach(records, render) == RenderEach(records[..n], render) + [render(records[n])];
    }
  }

  function RenderEach(records: seq<Sealed>, render: Sealed -> string): (lines: seq<string>)
    ensures |lines| == |records| && forall i :: 0 <= i < |records| ==> lines[i] == render(records[i])
  {
    seq(|records|, i requires 0 <= i < |records| => render(records[i]))
  }

  /** On a sound journal of this system's own writing, both readers return what was written. */
  lemma {:induction false} RenderedJournalLoads(records: seq<Sealed>, ring: map<KeyId, Key>, render: Sealed -> string,
                                                parse: string -> Option<Sealed>)
    requires RoundTrips(render, parse) && SoundJournal(records, ring) && ring != map[]
    ensures var file := Some(Render(records, render));
      && ReadOf(file, ring, parse) == (if records == [] then Unavailable else Records(records))
      && LatestOf(file, ring, parse) == (if records == [] then NothingYet else Found(records[|records| - 1]))
  {
    RenderedLines(records, render, parse);
    var text := Render(records, render);
    var parsed := ParseAll(Lines(text), parse);
    assert Reads(parsed, records) by {
      forall i | 0 <= i < |records|
        ensures parsed[i] == Some(records[i])
      {
        assert parsed[i] == parse(render(records[i]));
      }
    }
    hide RoundTrips, Reads, SoundJournal, Render;
    SoundJournalsLoad(parsed, records, ring);
    if records != [] { LatestIsTheLastRecord(text, ring, parse); }
  }
}
