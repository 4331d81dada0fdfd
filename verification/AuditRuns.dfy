/** The audit log and its checkpoint journal together (storage/audit.py, storage/unit_of_work.py): what a
    verification against the journal establishes, and that honest histories always pass it. */
module AuditRuns {

  import opened Common
  import opened AuditChain
  import opened AuditJournal

  // ----- verification against the journal -----

  datatype Report =
    | Broken(brokenAt: int, flaw: Flaw)
    | JournalInvalid(journalFault: JournalFault)
    | Unanchored(keyMissing: bool, unanchored: int)
    | Mismatch(latest: Checkpoint)
    | Passed(latest: Checkpoint, unanchored: int, priorUnanchored: int, current: bool, partial: bool)
    | Failed

  /** Python's index into a list: a negative one counts from the end. */
  function At(rows: seq<Row>, i: int): Option<Row> {
    if 0 <= i < |rows| then Some(rows[i]) else if -|rows| <= i < 0 then Some(rows[|rows| + i]) else None
  }

  /** The comparison of an intact chain with the last checkpoint. */
  function CompareWith(rows: seq<Row>, head: Hash, records: seq<Sealed>, now: int): Report
    requires records != []
  {
    var latest := records[|records| - 1].record;
    if |rows| < latest.count || (|rows| == latest.count && head != latest.headHash) then Mismatch(latest)
    else
      var unanchored := |rows| - latest.count;
      var anchor := At(rows, latest.count - 1);
      if unanchored != 0 && anchor == None then Failed
      else if unanchored != 0 && anchor.value.rowHash != Some(latest.headHash) then Mismatch(latest)
      else
        var prior := latest.anchoredFrom - 1;
        var reconciled := exists s <- records :: s.record.kind.Reconcile?;
        Passed(latest, unanchored, prior,
               now - latest.createdAt <= 24 * 3600 && unanchored == 0 && prior == 0 && !reconciled,
               prior != 0 || reconciled)
  }

  /** A checkpoint was taken from a log when it names one of its positions and the hash there. */
  ghost predicate TakenFrom(c: Checkpoint, log: seq<Row>) {
    1 <= c.count <= |log| && log[c.count - 1].rowHash == Some(c.headHash)
  }

  /** If verification passes against a journal whose last record was taken from an honest log, the first
      `count` rows of the database are that log's rows, entry for entry and in order: nothing in the
      anchored prefix was truncated, reordered, inserted, or edited. */
  lemma PassingPinsTheAnchoredPrefix(rows: seq<Row>, records: seq<Sealed>, ring: map<KeyId, Key>, now: int,
                                     log: seq<Row>, logRing: map<KeyId, Key>)
    requires ChainOk(rows, ring) && records != [] && CompareWith(rows, Before(rows, |rows|), records, now).Passed?
    requires ChainOk(log, logRing) && TakenFrom(records[|records| - 1].record, log)
    ensures var n := records[|records| - 1].record.count;
      n <= |rows| && forall i :: 0 <= i < n ==> SameEntry(rows[i], log[i])
  {
    var latest := records[|records| - 1].record;
    var n := latest.count;
    if |rows| == n {
      IntactHash(rows, n - 1, ring);
    }
    HashPinsPrefix(rows, log, n, ring, logRing);
  }

  // ----- writing -----

  /** The guards of `_append_row` against the last checkpoint. */
  predicate AppendBlocked(rows: seq<Row>, latest: Latest) {
    match latest
    case NothingYet => false
    case Raised => true
    case Found(s) =>
      || s.record.count > |rows|
      || (s.record.count > 0 && rows[s.record.count - 1].rowHash != Some(s.record.headHash))
  }

  /** The head mark `append_checkpoint` writes after the last record. */
  function HeadMarkAfter(latest: Option<Sealed>, count: int, head: Hash, keyId: KeyId, epoch: Epoch, now: int):
      (c: Checkpoint)
    ensures c.keyId == keyId
  {
    match latest
    case None => Checkpoint(HeadMark, epoch, count, head, now, keyId, NoSeal, count)
    case Some(s) => Checkpoint(HeadMark, s.record.epoch, count, head, now, keyId, s.seal, s.record.anchoredFrom)
  }

  function Sign(c: Checkpoint, ring: map<KeyId, Key>): Sealed
    requires c.keyId in ring
  {
    Sealed(c, SealOf(ring[c.keyId], c))
  }

  function Last(records: seq<Sealed>): Option<Sealed> {
    if records == [] then None else Some(records[|records| - 1])
  }

  // ----- honest histories -----

  datatype Log = Log(rows: seq<Row>, records: seq<Sealed>)

  datatype Keys = Keys(ring: map<KeyId, Key>, primary: KeyId)

  /** The write-key configuration is valid. */
  predicate Configured(keys: Keys) {
    keys.primary in keys.ring && keys.primary != ""
  }

  datatype Event =
    // one unit of work: its rows commit together; the process may die after `journaled` of their marks
    | Commit(entries: seq<Fields>, journaled: nat, epoch: Epoch, now: int, keys: Keys)
    // an operator restores a backup and reconciles the journal with it
    | Restore(rows: seq<Row>, reason: string, epoch: Epoch, now: int, keys: Keys)

  function AppendAll(rows: seq<Row>, entries: seq<Fields>, keys: Keys): (r: seq<Row>)
    requires Configured(keys)
    ensures |r| == |rows| + |entries| && r[..|rows|] == rows
  {
    if entries == [] then rows
    else
      var before := AppendAll(rows, entries[..|entries| - 1], keys);
      before + [NewRow(before, |before| + 1, entries[|entries| - 1], keys.ring, keys.primary)]
  }

  lemma AppendAllStep(rows: seq<Row>, entries: seq<Fields>, n: nat, keys: Keys)
    requires Configured(keys) && n <= |entries|
    ensures AppendAll(rows, entries[..n], keys)
            == if n == 0 then rows
               else var before := AppendAll(rows, entries[..n - 1], keys);
                    before + [NewRow(before, |before| + 1, entries[n - 1], keys.ring, keys.primary)]
  {
    if n > 0 { assert entries[..n][..n - 1] == entries[..n - 1]; }
  }

  /** The rows of a unit hold its entries, whole and in order, after everything there was. */
  lemma {:induction false} AppendAllRecords(rows: seq<Row>, entries: seq<Fields>, keys: Keys)
    requires Configured(keys)
    ensures EntriesOf(AppendAll(rows, entries, keys)) == EntriesOf(rows) + entries
  {
    if entries == [] {
      assert EntriesOf(rows) + [] == EntriesOf(rows);
    } else {
      var n := |entries| - 1;
      AppendAllRecords(rows, entries[..n], keys);
      var before := AppendAll(rows, entries[..n], keys);
      EntriesOfOneMore(before, NewRow(before, |before| + 1, entries[n], keys.ring, keys.primary));
      assert entries == entries[..n] + [entries[n]];
    }
  }

  lemma EntriesOfOneMore(rows: seq<Row>, row: Row)
    ensures EntriesOf(rows + [row]) == EntriesOf(rows) + [row.fields]
  {
  }

  function HashAt(rows: seq<Row>, i: nat): Hash
    requires i < |rows|
  {
    if rows[i].rowHash.Some? then rows[i].rowHash.value else Genesis
  }

  function MarkOne(records: seq<Sealed>, rows: seq<Row>, count: nat, epoch: Epoch, now: int, keys: Keys): seq<Sealed>
    requires Configured(keys) && 1 <= count <= |rows|
  {
    records + [Sign(HeadMarkAfter(Last(records), count, HashAt(rows, count - 1), keys.primary, epoch, now), keys.ring)]
  }

  /** The marks written after a commit, oldest first. */
  function MarkAll(records: seq<Sealed>, rows: seq<Row>, from: nat, n: nat, epoch: Epoch, now: int, keys: Keys):
      seq<Sealed>
    requires Configured(keys) && from + n <= |rows|
  {
    if n == 0 then records
    else MarkOne(MarkAll(records, rows, from, n - 1, epoch, now, keys), rows, from + n, epoch, now, keys)
  }

  function ReconcileMark(records: seq<Sealed>, rows: seq<Row>, reason: string, epoch: Epoch, now: int, keyId: KeyId):
      Checkpoint
    requires records != []
  {
    var previous := records[|records| - 1];
    var head := if rows == [] then Genesis else HashAt(rows, |rows| - 1);
    Checkpoint(Reconcile(previous.record.epoch, reason), epoch, |rows|, head, now, keyId, previous.seal, |rows|)
  }

  /** An event that can happen: keys are configured, marks follow rows, a restore is of an intact chain,
      into a journal that has records, with a reason and a new epoch. */
  ghost predicate Possible(l: Log, e: Event) {
    && Configured(e.keys)
    && match e
       case Commit(entries, journaled, _, _, _) => journaled <= |entries|
       case Restore(rows, reason, epoch, _, keys) =>
         && ChainOk(rows, keys.ring) && l.records != [] && reason != ""
         && epoch != l.records[|l.records| - 1].record.epoch
  }

  ghost function Apply(l: Log, e: Event): Log
    requires Possible(l, e)
  {
    match e
    case Commit(entries, journaled, epoch, now, keys) =>
      var rows := AppendAll(l.rows, entries, keys);
      Log(rows, MarkAll(l.records, rows, |l.rows|, journaled, epoch, now, keys))
    case Restore(rows, reason, epoch, now, keys) =>
      Log(rows, l.records + [Sign(ReconcileMark(l.records, rows, reason, epoch, now, keys.primary), keys.ring)])
  }

  /** The last record names a position of the log and the hash there; a count of zero names the empty log. */
  predicate Anchored(l: Log) {
    l.records != [] ==>
      var latest := l.records[|l.records| - 1].record;
      && 0 <= latest.count <= |l.rows|
      && (latest.count > 0 ==> l.rows[latest.count - 1].rowHash == Some(latest.headHash))
      && (latest.count == 0 ==> latest.headHash == Genesis)
  }

  ghost predicate Honest(l: Log, ring: map<KeyId, Key>) {
    ring != map[] && ChainOk(l.rows, ring) && SoundJournal(l.records, ring) && Anchored(l)
  }

  function Pending(l: Log): int {
    if l.records == [] then |l.rows| else |l.rows| - l.records[|l.records| - 1].record.count
  }

  lemma SoundUnderMoreKeys(records: seq<Sealed>, small: map<KeyId, Key>, large: map<KeyId, Key>)
    requires SoundJournal(records, small) && Grows(small, large)
    ensures SoundJournal(records, large)
  {
    forall i | 0 <= i < |records|
      ensures LinkOk(records, i, large)
    {
      assert LinkOk(records, i, small);
    }
  }

  lemma {:induction false} AppendAllKeepsChain(rows: seq<Row>, entries: seq<Fields>, keys: Keys)
    requires Configured(keys) && ChainOk(rows, keys.ring)
    ensures ChainOk(AppendAll(rows, entries, keys), keys.ring)
  {
    hide ChainOk;
    if entries != [] {
      var before := AppendAll(rows, entries[..|entries| - 1], keys);
      AppendAllKeepsChain(rows, entries[..|entries| - 1], keys);
      AppendKeepsChain(before, |before| + 1, entries[|entries| - 1], keys.ring, keys.primary);
    }
  }

  /** Marks written in order over the rows of one commit extend the journal soundly and leave it at the
      last marked row. */
  lemma {:induction false} MarkAllKeeps(l: Log, rows: seq<Row>, n: nat, epoch: Epoch, now: int, keys: Keys)
    requires Configured(keys) && Honest(l, keys.ring)
    requires |l.rows| + n <= |rows| && rows[..|l.rows|] == l.rows && ChainOk(rows, keys.ring)
    ensures var records := MarkAll(l.records, rows, |l.rows|, n, epoch, now, keys);
      && SoundJournal(records, keys.ring) && Anchored(Log(rows, records))
      && (n > 0 ==> records != [] && records[|records| - 1].record.count == |l.rows| + n)
      && (n == 0 ==> records == l.records)
  {
    hide SoundJournal, ChainOk, InOrder;
    if n == 0 {
      AnchorOverMoreRows(l, rows);
    } else {
      MarkAllKeeps(l, rows, n - 1, epoch, now, keys);
      hide Honest, Anchored, MarkAll, HashAt;
      MarkOneKeeps(MarkAll(l.records, rows, |l.rows|, n - 1, epoch, now, keys), rows, |l.rows| + n, epoch, now, keys);
      assert MarkAll(l.records, rows, |l.rows|, n, epoch, now, keys)
             == MarkOne(MarkAll(l.records, rows, |l.rows|, n - 1, epoch, now, keys), rows, |l.rows| + n, epoch, now, keys)
      by { MarkAllStep(l.records, rows, |l.rows|, n, epoch, now, keys); }
    }
  }

  lemma HonestParts(l: Log, ring: map<KeyId, Key>)
    requires Honest(l, ring)
    ensures ring != map[] && ChainOk(l.rows, ring) && SoundJournal(l.records, ring) && Anchored(l)
  {
  }

  lemma MarksStayBehind(l: Log, ring: map<KeyId, Key>)
    requires Honest(l, ring)
    ensures l.records != [] ==> l.records[|l.records| - 1].record.count <= |l.rows|
  {
  }

  lemma MarkNone(records: seq<Sealed>, rows: seq<Row>, from: nat, epoch: Epoch, now: int, keys: Keys)
    requires Configured(keys) && from <= |rows|
    ensures MarkAll(records, rows, from, 0, epoch, now, keys) == records
  {
  }

  lemma MarkAllStep(records: seq<Sealed>, rows: seq<Row>, from: nat, n: nat, epoch: Epoch, now: int, keys: Keys)
    requires Configured(keys) && from + n <= |rows| && n > 0
    ensures MarkAll(records, rows, from, n, epoch, now, keys)
            == MarkOne(MarkAll(records, rows, from, n - 1, epoch, now, keys), rows, from + n, epoch, now, keys)
  {
  }

  lemma AnchorOverMoreRows(l: Log, rows: seq<Row>)
    requires Anchored(l) && |l.rows| <= |rows| && rows[..|l.rows|] == l.rows
    ensures Anchored(Log(rows, l.records))
  {
    if l.records != [] {
      var latest := l.records[|l.records| - 1].record;
      if latest.count > 0 { assert rows[latest.count - 1] == rows[..|l.rows|][latest.count - 1]; }
    }
  }

  /** One mark over row `count`, past the last record's. */
  lemma MarkOneKeeps(before: seq<Sealed>, rows: seq<Row>, count: nat, epoch: Epoch, now: int, keys: Keys)
    requires Configured(keys) && SoundJournal(before, keys.ring) && ChainOk(rows, keys.ring) && 1 <= count <= |rows|
    requires before != [] ==> count > before[|before| - 1].record.count
    ensures var records := MarkOne(before, rows, count, epoch, now, keys);
      && SoundJournal(records, keys.ring) && Anchored(Log(rows, records))
      && records != [] && records[|records| - 1].record.count == count
  {
    hide SoundJournal, ChainOk;
    IntactHash(rows, count - 1, keys.ring);
    MarkAdvances(before, HeadMarkAfter(Last(before), count, HashAt(rows, count - 1), keys.primary, epoch, now), keys.ring);
  }

  lemma MarkAdvances(before: seq<Sealed>, c: Checkpoint, ring: map<KeyId, Key>)
    requires SoundJournal(before, ring) && c.keyId in ring && c.kind == HeadMark && c.previousSeal == LastSeal(before)
    requires before != [] ==> c.epoch == before[|before| - 1].record.epoch && c.count > before[|before| - 1].record.count
    ensures SoundJournal(before + [Sign(c, ring)], ring)
  {
    hide SoundJournal;
    SoundExtends(before, Sign(c, ring), ring);
  }

  lemma HonestUnderMoreKeys(l: Log, small: map<KeyId, Key>, large: map<KeyId, Key>)
    requires Honest(l, small) && Grows(small, large)
    ensures Honest(l, large)
  {
    ChainOkUnderMoreKeys(l.rows, small, large);
    SoundUnderMoreKeys(l.records, small, large);
    var k :| k in small;
    assert k in large;
  }

  lemma CommitKeepsHonest(l: Log, entries: seq<Fields>, journaled: nat, epoch: Epoch, now: int, keys: Keys)
    requires Honest(l, keys.ring) && Configured(keys) && journaled <= |entries|
    ensures var after := Apply(l, Commit(entries, journaled, epoch, now, keys));
      && Honest(after, keys.ring)
      && Pending(after) == (if journaled == 0 then Pending(l) + |entries| else |entries| - journaled)
  {
    hide ChainOk, SoundJournal;
    AppendAllKeepsChain(l.rows, entries, keys);
    MarkAllKeeps(l, AppendAll(l.rows, entries, keys), journaled, epoch, now, keys);
    hide Anchored, AppendAll, MarkAll;
  }

  lemma RestoreKeepsHonest(l: Log, rows: seq<Row>, reason: string, epoch: Epoch, now: int, keys: Keys)
    requires Honest(l, keys.ring) && Possible(l, Restore(rows, reason, epoch, now, keys))
    ensures var after := Apply(l, Restore(rows, reason, epoch, now, keys));
      Honest(after, keys.ring) && Pending(after) == 0
  {
    hide ChainOk, SoundJournal;
    if rows != [] { IntactHash(rows, |rows| - 1, keys.ring); }
    SoundExtends(l.records, Sign(ReconcileMark(l.records, rows, reason, epoch, now, keys.primary), keys.ring), keys.ring);
  }

  lemma StepKeepsHonest(l: Log, e: Event, ring: map<KeyId, Key>)
    requires Honest(l, ring) && Possible(l, e) && Grows(ring, e.keys.ring)
    ensures Honest(Apply(l, e), e.keys.ring)
    ensures Pending(Apply(l, e)) == (match e
                                     case Commit(entries, journaled, _, _, _) =>
                                       if journaled == 0 then Pending(l) + |entries| else |entries| - journaled
                                     case Restore(_, _, _, _, _) => 0)
  {
    HonestUnderMoreKeys(l, ring, e.keys.ring);
    match e
    case Commit(entries, journaled, epoch, now, keys) => CommitKeepsHonest(l, entries, journaled, epoch, now, keys);
    case Restore(rows, reason, epoch, now, keys) => RestoreKeepsHonest(l, rows, reason, epoch, now, keys);
  }

  /** An honest log never refuses the next append, nor any of its rows within a unit, nor its mark. */
  lemma HonestNeverBlocks(l: Log, ring: map<KeyId, Key>, entries: seq<Fields>, keys: Keys)
    requires Honest(l, ring) && Configured(keys)
    ensures var latest := if l.records == [] then NothingYet else Found(l.records[|l.records| - 1]);
      var rows := AppendAll(l.rows, entries, keys);
      && !AppendBlocked(rows, latest)
      && (latest.Found? && entries != [] ==> |rows| > latest.s.record.count)
  {
    hide ChainOk, SoundJournal;
    var rows := AppendAll(l.rows, entries, keys);
    if l.records != [] {
      var latest := l.records[|l.records| - 1].record;
      if latest.count > 0 { assert rows[latest.count - 1] == rows[..|l.rows|][latest.count - 1]; }
    }
  }

  /** Verification of an honest log passes, reporting exactly the rows committed since the last mark,
      if and only if that mark counts at least one row or the log is empty. With a mark that counts
      none, the comparison reads the last row instead of no row and reports a mismatch. */
  lemma HonestVerifies(l: Log, ring: map<KeyId, Key>, now: int)
    requires Honest(l, ring) && l.records != []
    ensures var report := CompareWith(l.rows, Before(l.rows, |l.rows|), l.records, now);
      var latest := l.records[|l.records| - 1].record;
      && (report.Passed? <==> latest.count >= 1 || l.rows == [])
      && (report.Passed? ==> report.unanchored == Pending(l))
      && (!report.Passed? ==> report == Mismatch(latest))
  {
    hide ChainOk, SoundJournal, Before;
    var n := |l.rows|;
    if n > 0 {
      IntactHash(l.rows, n - 1, ring);
      BeforeNext(l.rows, n - 1);
    } else {
      NothingBefore(l.rows);
    }
  }

  lemma NothingBefore(rows: seq<Row>)
    ensures Before(rows, 0) == Genesis
  {
  }

  // ----- whole runs -----

  /** Possible events under keys that are only ever added. */
  ghost predicate FairRun(l: Log, ring: map<KeyId, Key>, events: seq<Event>)
    decreases |events|
  {
    events == [] || (Possible(l, events[0]) && Grows(ring, events[0].keys.ring)
                     && FairRun(Apply(l, events[0]), events[0].keys.ring, events[1..]))
  }

  ghost function Run(l: Log, ring: map<KeyId, Key>, events: seq<Event>): Log
    requires FairRun(l, ring, events)
    decreases |events|
  {
    if events == [] then l else Run(Apply(l, events[0]), events[0].keys.ring, events[1..])
  }

  function LastRing(ring: map<KeyId, Key>, events: seq<Event>): map<KeyId, Key> {
    if events == [] then ring else events[|events| - 1].keys.ring
  }

  /** Rows committed since the last journal record. */
  function SinceLastMark(before: int, events: seq<Event>): int
    decreases |events|
  {
    if events == [] then before
    else
      SinceLastMark(match events[0]
                    case Commit(entries, journaled, _, _, _) =>
                      if journaled == 0 then before + |entries| else |entries| - journaled
                    case Restore(_, _, _, _, _) => 0,
                    events[1..])
  }

  /** Over any honest run, with crashes between commit and mark anywhere, units of any size, key rotation
      and restores, the log stays honest and its unanchored rows are those since the last mark. */
  lemma {:induction false} RunStaysHonest(l: Log, ring: map<KeyId, Key>, events: seq<Event>)
    requires Honest(l, ring) && FairRun(l, ring, events)
    ensures Honest(Run(l, ring, events), LastRing(ring, events))
    ensures Pending(Run(l, ring, events)) == SinceLastMark(Pending(l), events)
    decreases |events|
  {
    hide Honest, Possible, Apply, Pending;
    if events != [] {
      StepKeepsHonest(l, events[0], ring);
      RunStaysHonest(Apply(l, events[0]), events[0].keys.ring, events[1..]);
    }
  }

  lemma {:induction false} RunWithoutEmptyRestore(l: Log, ring: map<KeyId, Key>, events: seq<Event>)
    requires Honest(l, ring) && FairRun(l, ring, events)
    requires l.records == [] || l.records[|l.records| - 1].record.count >= 1
    requires forall e <- events :: e.Restore? ==> e.rows != []
    ensures var after := Run(l, ring, events);
      after.records == [] || after.records[|after.records| - 1].record.count >= 1
    decreases |events|
  {
    hide Honest, Possible, Apply, AppendAll, MarkAll;
    if events != [] {
      var e := events[0];
      StepKeepsHonest(l, e, ring);
      StepCounts(l, e, ring);
      RunWithoutEmptyRestore(Apply(l, e), e.keys.ring, events[1..]);
    }
  }

  lemma StepCounts(l: Log, e: Event, ring: map<KeyId, Key>)
    requires Honest(l, ring) && Possible(l, e) && Grows(ring, e.keys.ring) && (e.Restore? ==> e.rows != [])
    requires l.records == [] || l.records[|l.records| - 1].record.count >= 1
    ensures var after := Apply(l, e); after.records == [] || after.records[|after.records| - 1].record.count >= 1
  {
    HonestUnderMoreKeys(l, ring, e.keys.ring);
    hide ChainOk, SoundJournal;
    if e.Commit? {
      AppendAllKeepsChain(l.rows, e.entries, e.keys);
      MarkAllKeeps(l, AppendAll(l.rows, e.entries, e.keys), e.journaled, e.epoch, e.now, e.keys);
    }
  }

  /** So a run from an empty log that never reconciles onto an empty one always verifies. */
  lemma HonestRunsVerify(ring: map<KeyId, Key>, events: seq<Event>, now: int)
    requires ring != map[] && FairRun(Log([], []), ring, events)
    requires forall e <- events :: e.Restore? ==> e.rows != []
    ensures var l := Run(Log([], []), ring, events);
      && ChainOk(l.rows, LastRing(ring, events))
      && (l.records != [] ==>
            var report := CompareWith(l.rows, Before(l.rows, |l.rows|), l.records, now);
            report.Passed? && report.unanchored == SinceLastMark(0, events))
  {
    RunStaysHonest(Log([], []), ring, events);
    RunWithoutEmptyRestore(Log([], []), ring, events);
    var l := Run(Log([], []), ring, events);
    if l.records != [] { HonestVerifies(l, LastRing(ring, events), now); }
  }

  // ----- what the log holds -----

  /** All entries of the units committed, in order. */
  function Committed(events: seq<Event>): seq<Fields> {
    if events == [] then []
    else (if events[0].Commit? then events[0].entries else []) + Committed(events[1..])
  }

  /** Where the last restore stands among the events, or -1. */
  ghost predicate LastRestore(events: seq<Event>, k: int) {
    -1 <= k < |events| && (k >= 0 ==> events[k].Restore?) && forall i :: k < i < |events| ==> events[i].Commit?
  }

  /** The entries of the backup last restored, or those there were, and those of all units committed since. */
  ghost function Recorded(before: seq<Fields>, events: seq<Event>, k: int): seq<Fields>
    requires LastRestore(events, k)
  {
    (if k < 0 then before else EntriesOf(events[k].rows)) + Committed(events[k + 1..])
  }

  /** After any run the log holds what was recorded, whole and in order. */
  lemma {:induction false} LogHoldsWhatWasRecorded(l: Log, ring: map<KeyId, Key>, events: seq<Event>, k: int)
    requires FairRun(l, ring, events) && LastRestore(events, k)
    ensures EntriesOf(Run(l, ring, events).rows) == Recorded(EntriesOf(l.rows), events, k)
    decreases |events|
  {
    hide Possible, Apply, EntriesOf;
    if events != [] {
      var e, rest := events[0], events[1..];
      StepRecords(l, e);
      assert forall i :: 0 <= i < |rest| ==> rest[i] == events[i + 1];
      LogHoldsWhatWasRecorded(Apply(l, e), e.keys.ring, rest, if k < 0 then -1 else k - 1);
      RecordedStep(EntriesOf(l.rows), EntriesOf(Apply(l, e).rows), events, k);
    }
  }

  lemma RecordedStep(before: seq<Fields>, after: seq<Fields>, events: seq<Event>, k: int)
    requires events != [] && LastRestore(events, k)
    requires LastRestore(events[1..], if k < 0 then -1 else k - 1)
    requires after == if events[0].Commit? then before + events[0].entries else EntriesOf(events[0].rows)
    ensures Recorded(before, events, k) == Recorded(after, events[1..], if k < 0 then -1 else k - 1)
  {
    hide EntriesOf;
    assert events[0..] == events && events[1..][0..] == events[1..];
    if k >= 0 { assert events[1..][k..] == events[k + 1..]; }
  }

  lemma StepRecords(l: Log, e: Event)
    requires Possible(l, e)
    ensures EntriesOf(Apply(l, e).rows)
         == if e.Commit? then EntriesOf(l.rows) + e.entries else EntriesOf(e.rows)
  {
    hide EntriesOf;
    if e.Commit? { AppendAllRecords(l.rows, e.entries, e.keys); }
  }

  const START := Log([], [])

  lemma StartIsHonest(ring: map<KeyId, Key>)
    requires ring != map[]
    ensures Honest(START, ring)
  {
  }

  /** A database that verifies against the journal of an honest run holds, as far as the last mark reaches,
      exactly what was recorded in that run; all of it, when the report leaves no row unanchored and the run
      left none unmarked. */
  lemma PassingLogHoldsWhatWasRecorded(ring: map<KeyId, Key>, events: seq<Event>, k: int, rows: seq<Row>,
                                       readRing: map<KeyId, Key>, now: int)
    requires ring != map[] && FairRun(START, ring, events) && LastRestore(events, k) && ChainOk(rows, readRing)
    requires Run(START, ring, events).records != [] && Last(Run(START, ring, events).records).value.record.count >= 1
    requires CompareWith(rows, Before(rows, |rows|), Run(START, ring, events).records, now).Passed?
    ensures var recorded, n := Recorded([], events, k), Last(Run(START, ring, events).records).value.record.count;
      && n <= |rows| && n <= |recorded| && EntriesOf(rows)[..n] == recorded[..n]
      && (n == |rows| && SinceLastMark(0, events) == 0 ==> EntriesOf(rows) == recorded)
  {
    hide ChainOk, SoundJournal, Before, Run, FairRun, CompareWith, Recorded, LastRestore, Committed;
    StartIsHonest(ring);
    var l := Run(START, ring, events);
    RunStaysHonest(START, ring, events);
    LogHoldsWhatWasRecorded(START, ring, events, k);
    assert EntriesOf(START.rows) == [];
    PassingPinsTheAnchoredPrefix(rows, l.records, readRing, now, l.rows, LastRing(ring, events));
  }

  // ----- where anchoring begins -----

  predicate Reconciled(records: seq<Sealed>) {
    exists s <- records :: s.record.kind.Reconcile?
  }

  /** Marks begin where the first one did, unless a reconciliation opened another epoch. */
  predicate BeginsAtTheFirst(records: seq<Sealed>) {
    Reconciled(records) || forall s <- records :: s.record.anchoredFrom == records[0].record.count
  }

  lemma {:induction false} MarksBeginAtTheFirst(records: seq<Sealed>, rows: seq<Row>, from: nat, n: nat, epoch: Epoch,
                                                now: int, keys: Keys)
    requires Configured(keys) && from + n <= |rows| && BeginsAtTheFirst(records)
    ensures var after := MarkAll(records, rows, from, n, epoch, now, keys);
      BeginsAtTheFirst(after) && (Reconciled(after) <==> Reconciled(records))
  {
    if n > 0 {
      MarksBeginAtTheFirst(records, rows, from, n - 1, epoch, now, keys);
      var before := MarkAll(records, rows, from, n - 1, epoch, now, keys);
      var mark := HeadMarkAfter(Last(before), from + n, HashAt(rows, from + n - 1), keys.primary, epoch, now);
      var after := before + [Sign(mark, keys.ring)];
      assert after == MarkAll(records, rows, from, n, epoch, now, keys);
      assert mark.kind == HeadMark;
      assert forall s :: s in after <==> s in before || s == Sign(mark, keys.ring);
    }
  }

  lemma {:induction false} RunBeginsAtTheFirst(l: Log, ring: map<KeyId, Key>, events: seq<Event>)
    requires FairRun(l, ring, events) && BeginsAtTheFirst(l.records)
    ensures var after := Run(l, ring, events).records;
      BeginsAtTheFirst(after) && (Reconciled(after) <==> Reconciled(l.records) || exists e <- events :: e.Restore?)
    decreases |events|
  {
    hide AppendAll, MarkAll, ChainOk, BeginsAtTheFirst;
    if events != [] {
      var e := events[0];
      StepBeginsAtTheFirst(l, e);
      RunBeginsAtTheFirst(Apply(l, e), e.keys.ring, events[1..]);
      assert forall f :: f in events <==> f == e || f in events[1..];
    }
  }

  lemma StepBeginsAtTheFirst(l: Log, e: Event)
    requires Possible(l, e) && BeginsAtTheFirst(l.records)
    ensures BeginsAtTheFirst(Apply(l, e).records)
    ensures Reconciled(Apply(l, e).records) <==> Reconciled(l.records) || e.Restore?
  {
    hide ChainOk;
    match e
    case Commit(entries, journaled, epoch, now, keys) =>
      MarksBeginAtTheFirst(l.records, AppendAll(l.rows, entries, keys), |l.rows|, journaled, epoch, now, keys);
    case Restore(rows, reason, epoch, now, keys) =>
      var mark := Sign(ReconcileMark(l.records, rows, reason, epoch, now, keys.primary), keys.ring);
      assert Apply(l, e).records[|l.records|] == mark;
  }

  /** An honest log that passes is reported current exactly when every row committed is marked, by a mark of
      the last day, the first mark ever written was that of the first row, and nothing was ever restored; it
      is reported partially anchored exactly when one of the last two fails. */
  lemma CurrentExactly(ring: map<KeyId, Key>, events: seq<Event>, now: int)
    requires ring != map[] && FairRun(START, ring, events)
    requires var l := Run(START, ring, events);
      l.records != [] && CompareWith(l.rows, Before(l.rows, |l.rows|), l.records, now).Passed?
    ensures var l := Run(START, ring, events);
      var report := CompareWith(l.rows, Before(l.rows, |l.rows|), l.records, now);
      var whole := l.records[0].record.count == 1 && forall e <- events :: e.Commit?;
      && (report.partial <==> !whole)
      && (report.current <==>
            whole && SinceLastMark(0, events) == 0 && now - l.records[|l.records| - 1].record.createdAt <= 86400)
  {
    hide ChainOk, SoundJournal, Before, Run, FairRun;
    var l := Run(START, ring, events);
    StartIsHonest(ring);
    RunStaysHonest(START, ring, events);
    RunBeginsAtTheFirst(START, ring, events);
    HonestVerifies(l, LastRing(ring, events), now);
    assert l.records[|l.records| - 1] in l.records;
  }

  // ----- the store -----

  /** The report names row `i`, the first with a flaw, and that flaw. */
  ghost predicate FirstFlaw(rows: seq<Row>, ring: map<KeyId, Key>, i: nat, report: Report)
    requires i < |rows|
  {
    report.Broken? && ChainOk(rows[..i], ring)
    && FlawOf(rows[i], Before(rows, i), ring) == Some(report.flaw) && report.brokenAt == rows[i].id
  }

  class AuditStore {
    var rows: seq<Row>
    var file: Option<string>
    ghost var records: seq<Sealed>
    const parse: string -> Option<Sealed>
    const render: Sealed -> string

    constructor (parse: string -> Option<Sealed>, render: Sealed -> string)
      ensures rows == [] && file == None && records == [] && this.parse == parse && this.render == render
    {
      this.parse, this.render := parse, render;
      rows, file, records := [], None, [];
    }

    /** The file holds the records written so far, one a line. */
    ghost predicate Valid()
      reads this
    {
      && RoundTrips(render, parse)
      && (file == None ==> records == [])
      && (file.Some? ==> file.value == Render(records, render))
    }

    /** `_verify_audit_chain_unlocked`. */
    method Verify(ring: map<KeyId, Key>, now: int) returns (report: Report)
      ensures report.Broken? <==> !ChainOk(rows, ring)
      ensures report.Broken? ==> exists i :: 0 <= i < |rows| && FirstFlaw(rows, ring, i, report)
      ensures ChainOk(rows, ring) ==>
        match ReadOf(file, ring, parse)
        case Invalid(fault) => report == JournalInvalid(fault)
        case Unavailable => report == Unanchored(false, |rows|)
        case KeyUnavailable => report == Unanchored(true, |rows|)
        case Records(records) =>
          records != [] && report == CompareWith(rows, Before(rows, |rows|), records, now)
    {
      hide ChainOk, Before, ReadOf, SoundJournal;
      var chain := VerifyRows(rows, ring);
      if chain.BrokenAt? {
        report := Broken(rows[chain.index].id, chain.flaw);
        assert FirstFlaw(rows, ring, chain.index, report);
        return;
      }
      var journal := ReadCheckpoints(file, ring, parse);
      match journal {
        case Invalid(fault) => return JournalInvalid(fault);
        case Unavailable => return Unanchored(false, |rows|);
        case KeyUnavailable => return Unanchored(true, |rows|);
        case Records(records) =>
          var latest := records[|records| - 1].record;
          if |rows| < latest.count || (|rows| == latest.count && chain.head != latest.headHash) {
            return Mismatch(latest);
          }
          var unanchored := |rows| - latest.count;
          if unanchored != 0 {
            var anchor := At(rows, latest.count - 1);
            if anchor == None { return Failed; }
            if anchor.value.rowHash != Some(latest.headHash) { return Mismatch(latest); }
          }
          var prior := latest.anchoredFrom - 1;
          var reconciled := exists s <- records :: s.record.kind.Reconcile?;
          var current := now - latest.createdAt <= 24 * 3600 && unanchored == 0 && prior == 0 && !reconciled;
          return Passed(latest, unanchored, prior, current, prior != 0 || reconciled);
      }
    }

    // ----- appending -----

    /** `_append_row` on the unit's connection: `blocked` where it raises. */
    method AppendRow(fields: Fields, keys: Keys) returns (blocked: bool)
      requires Configured(keys)
      modifies this`rows
      ensures blocked == AppendBlocked(old(rows), LatestOf(file, keys.ring, parse))
      ensures rows == if blocked then old(rows)
                      else old(rows) + [NewRow(old(rows), |old(rows)| + 1, fields, keys.ring, keys.primary)]
      ensures !blocked ==> |rows| == |old(rows)| + 1 && EntriesOf(rows) == EntriesOf(old(rows)) + [fields]
    {
      hide LatestOf;
      var prev := Genesis;
      if |rows| > 0 && rows[|rows| - 1].rowHash.Some? { prev := rows[|rows| - 1].rowHash.value; }
      var checkpoint := LatestCheckpoint(file, keys.ring, parse);
      if checkpoint.Raised? { return true; }
      if checkpoint.Found? {
        var c := checkpoint.s.record;
        if c.count > |rows| { return true; }
        if c.count > 0 && rows[c.count - 1].rowHash != Some(c.headHash) { return true; }
      }
      var hash := RowHash(prev, fields);
      rows := rows + [Row(|rows| + 1, fields, Some(prev), Some(hash), Some(MacOf(keys.ring[keys.primary], hash)),
                          Some(keys.primary), Some(CURRENT_VERSION))];
      return false;
    }

    /** `append_checkpoint`: a signed line after the last one; `refused` where it raises. */
    method AppendMark(count: nat, head: Hash, epoch: Epoch, now: int, keys: Keys) returns (refused: bool)
      requires Configured(keys)
      modifies this`file
      ensures var latest := LatestOf(old(file), keys.ring, parse);
        && (refused <==> latest.Raised? || (latest.Found? && count <= latest.s.record.count))
        && file == if refused then old(file)
                   else
                     var last := if latest.Found? then Some(latest.s) else None;
                     var mark := Sign(HeadMarkAfter(last, count, head, keys.primary, epoch, now), keys.ring);
                     Some((if old(file).Some? then old(file).value else "") + render(mark) + "\n")
    {
      hide LatestOf;
      var previous := LatestCheckpoint(file, keys.ring, parse);
      if previous.Raised? { return true; }
      var last := None;
      if previous.Found? {
        if count <= previous.s.record.count { return true; }
        last := Some(previous.s);
      }
      var entry := HeadMarkAfter(last, count, head, keys.primary, epoch, now);
      var text := "";
      if file.Some? { text := file.value; }
      file := Some(text + render(Sign(entry, keys.ring)) + "\n");
      return false;
    }

    /** A unit of work that audits `entries`, commits, and then writes its marks in order, dying after
        `journaled` of them; a lone `record_audit` is a unit of one entry. */
    method RecordUnit(entries: seq<Fields>, journaled: nat, epoch: Epoch, now: int, keys: Keys) returns (committed: bool)
      requires Configured(keys) && journaled <= |entries|
      requires Valid() && Honest(Log(rows, records), keys.ring)
      modifies this
      ensures Valid() && committed
      ensures Log(rows, records) == Apply(old(Log(rows, records)), Commit(entries, journaled, epoch, now, keys))
      ensures EntriesOf(rows) == old(EntriesOf(rows)) + entries
    {
      hide Honest, AppendAll, MarkAll, EntriesOf;
      AppendAllRecords(rows, entries, keys);
      ghost var l := Log(rows, records);
      var before := |rows|;
      AppendRows(entries, keys);
      WriteMarks(before, journaled, epoch, now, keys, entries, l);
      return true;
    }

    method AppendRows(entries: seq<Fields>, keys: Keys)
      requires Configured(keys) && Valid() && Honest(Log(rows, records), keys.ring)
      modifies this`rows
      ensures rows == AppendAll(old(rows), entries, keys)
    {
      hide *;
      ghost var l := Log(rows, records);
      HonestParts(l, keys.ring);
      LatestIsLast(keys.ring);
      ghost var latest := LatestOf(file, keys.ring, parse);
      AppendAllStep(rows, entries, 0, keys);
      for i := 0 to |entries|
        invariant rows == AppendAll(l.rows, entries[..i], keys)
        invariant LatestOf(file, keys.ring, parse) == latest
      {
        HonestNeverBlocks(l, keys.ring, entries[..i], keys);
        var blocked := AppendRow(entries[i], keys);
        AppendAllStep(l.rows, entries, i + 1, keys);
      }
      assert entries[..|entries|] == entries;
    }

    method WriteMarks(before: nat, n: nat, epoch: Epoch, now: int, keys: Keys, ghost entries: seq<Fields>, ghost l: Log)
      requires Configured(keys) && Valid() && Honest(l, keys.ring)
      requires before == |l.rows| && before + n <= |rows| && records == l.records
      requires rows == AppendAll(l.rows, entries, keys)
      modifies this`file, this`records
      ensures Valid() && records == MarkAll(l.records, rows, before, n, epoch, now, keys)
    {
      hide *;
      HonestParts(l, keys.ring);
      AppendAllKeepsChain(l.rows, entries, keys);
      MarkNone(l.records, rows, before, epoch, now, keys);
      MarksStayBehind(l, keys.ring);
      for i := 0 to n
        invariant Valid() && records == MarkAll(l.records, rows, before, i, epoch, now, keys)
      {
        MarkAllKeeps(l, rows, i, epoch, now, keys);
        WriteMark(before + i + 1, epoch, now, keys);
        MarkAllStep(l.records, rows, before, i + 1, epoch, now, keys);
      }
    }

    lemma LatestIsLast(ring: map<KeyId, Key>)
      requires Valid() && SoundJournal(records, ring) && ring != map[]
      ensures LatestOf(file, ring, parse) == (if records == [] then NothingYet else Found(records[|records| - 1]))
    {
      RenderedJournalLoads(records, ring, render, parse);
    }

    /** One mark after a commit, which an honest journal never refuses. */
    method WriteMark(count: nat, epoch: Epoch, now: int, keys: Keys)
      requires Configured(keys) && Valid() && SoundJournal(records, keys.ring)
      requires 1 <= count <= |rows| && (records != [] ==> count > records[|records| - 1].record.count)
      modifies this`file, this`records
      ensures Valid() && records == MarkOne(old(records), rows, count, epoch, now, keys)
    {
      hide LatestOf, RoundTrips, SoundJournal, HeadMarkAfter, Render;
      LatestIsLast(keys.ring);
      RenderNone(render);
      var refused := AppendMark(count, HashAt(rows, count - 1), epoch, now, keys);
      RenderOneMore(records, Sign(HeadMarkAfter(Last(records), count, HashAt(rows, count - 1), keys.primary, epoch, now),
                                  keys.ring), render);
      records := MarkOne(records, rows, count, epoch, now, keys);
    }

    /** `reconcile_audit_after_restore`: only over an intact chain and a readable journal, with a reason and
        the seal the operator saw, does it open a new epoch at the restored head. */
    method ReconcileAfterRestore(reason: string, expectedSeal: Seal, epoch: Epoch, now: int, keys: Keys)
      returns (refused: bool)
      requires Configured(keys) && Valid() && SoundJournal(records, keys.ring)
      modifies this`file, this`records
      ensures Valid()
      ensures refused <==> !(ChainOk(rows, keys.ring) && old(records) != []
                             && old(records)[|old(records)| - 1].seal == expectedSeal && reason != "")
      ensures records == if refused then old(records)
                         else old(records)
                              + [Sign(ReconcileMark(old(records), rows, reason, epoch, now, keys.primary), keys.ring)]
    {
      hide ChainOk, Before, SoundJournal, RoundTrips, ReadOf, LatestOf, Render;
      var chain := VerifyRows(rows, keys.ring);
      if chain.BrokenAt? { return true; }
      RenderedJournalLoads(records, keys.ring, render, parse);
      assert file == None ==> ReadOf(file, keys.ring, parse) == Unavailable by { ReadNothing(keys.ring, parse); }
      var journal := ReadCheckpoints(file, keys.ring, parse);
      if !journal.Records? { return true; }
      var previous := journal.records[|journal.records| - 1];
      if previous.seal != expectedSeal { return true; }
      if reason == "" { return true; }
      var mark := Sign(ReconcileMark(journal.records, rows, reason, epoch, now, keys.primary), keys.ring);
      RenderOneMore(records, mark, render);
      file := Some(file.value + render(mark) + "\n");
      records := records + [mark];
      return false;
    }
  }

  lemma RenderNone(render: Sealed -> string)
    ensures Render([], render) == ""
  {
  }

  lemma RenderOneMore(records: seq<Sealed>, s: Sealed, render: Sealed -> string)
    ensures Render(records + [s], render) == Render(records, render) + render(s) + "\n"
  {
    assert (records + [s])[..|records|] == records;
  }

  lemma ReadNothing(ring: map<KeyId, Key>, parse: string -> Option<Sealed>)
    ensures ReadOf(None, ring, parse) == Unavailable
  {
  }

  /** From any honest log with a journal: reconcile onto an empty log, then die between the next commit
      and its mark. The history is honest, and verification reports a mismatch. */
  lemma {:induction false} EmptyRestoreRaisesFalseAlarm(l: Log, ring: map<KeyId, Key>, reason: string, epoch: Epoch,
                                                        now: int, keys: Keys,
                                                        entries: seq<Fields>)
    requires Honest(l, ring) && Grows(ring, keys.ring) && Configured(keys) && entries != []
    requires l.records != [] && reason != "" && epoch != l.records[|l.records| - 1].record.epoch
    ensures FairRun(l, ring, [Restore([], reason, epoch, now, keys), Commit(entries, 0, epoch, now, keys)])
    ensures var after := Run(l, ring, [Restore([], reason, epoch, now, keys), Commit(entries, 0, epoch, now, keys)]);
      && Honest(after, keys.ring) && after.records != []
      && CompareWith(after.rows, Before(after.rows, |after.rows|), after.records, now).Mismatch?
  {
    var restore, commit := Restore([], reason, epoch, now, keys), Commit(entries, 0, epoch, now, keys);
    var events := [restore, commit];
    assert events[1..] == [commit] && [commit][1..] == [];
    assert Possible(l, restore);
    hide ChainOk, SoundJournal;
    var restored := Apply(l, restore);
    assert Possible(restored, commit);
    var after := Apply(restored, commit);
    MarkNone(restored.records, after.rows, 0, epoch, now, keys);
    assert after.records == restored.records && |after.rows| == |entries|;
    StepKeepsHonest(l, restore, ring);
    StepKeepsHonest(restored, commit, keys.ring);
    assert FairRun(after, keys.ring, []);
    assert FairRun(restored, keys.ring, [commit]);
    assert Run(restored, keys.ring, [commit]) == after;
    HonestVerifies(after, keys.ring, now);
  }
}
