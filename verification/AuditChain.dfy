/** The hash chain of the audit log (storage/audit.py). SHA-256 and HMAC are free constructors: what they
    digest can be read back from them, and no other text equals their output. */
module AuditChain {

  import opened Common

  type Key = string

  type KeyId = string

  datatype Fields = Fields(createdAt: string, actor: string, tenant: Option<string>, action: string,
                           targetType: Option<string>, targetId: Option<string>, detail: Option<string>)

  datatype Hash = Genesis | RowHash(prev: Hash, fields: Fields) | OtherText(text: string)

  datatype Mac = MacOf(key: Key, hash: Hash) | OtherMac(text: string)

  datatype Row = Row(id: int, fields: Fields, prevHash: Option<Hash>, rowHash: Option<Hash>, mac: Option<Mac>,
                     keyId: Option<KeyId>, version: Option<int>)

  const CURRENT_VERSION := 1

  const LEGACY: KeyId := "legacy"

  // ----- verification of the rows -----

  datatype Flaw = UnknownVersion(version: int) | HashChain | MacMissing | MacWrong

  /** `_compute_row_hash`: no hasher is registered for other versions. */
  function ComputeHash(version: int, prev: Hash, fields: Fields): Option<Hash> {
    if version == CURRENT_VERSION then Some(RowHash(prev, fields)) else None
  }

  /** The flaw the loop reports for a row that should follow `prev`. */
  function FlawOf(row: Row, prev: Hash, ring: map<KeyId, Key>): Option<Flaw> {
    var version := if row.version.Some? then row.version.value else CURRENT_VERSION;
    var recomputed := ComputeHash(version, prev, row.fields);
    if recomputed == None then Some(UnknownVersion(version))
    else if row.prevHash != Some(prev) || row.rowHash != recomputed then Some(HashChain)
    else if ring == map[] then None
    else if row.mac == None then Some(MacMissing)
    else
      var keyId := if row.keyId.Some? && row.keyId.value != "" then row.keyId.value else LEGACY;
      if keyId !in ring || row.mac != Some(MacOf(ring[keyId], recomputed.value)) then Some(MacWrong) else None
  }

  /** The hash that a chain of these entries ends in. */
  function Head(entries: seq<Fields>): Hash {
    if entries == [] then Genesis else RowHash(Head(entries[..|entries| - 1]), entries[|entries| - 1])
  }

  function EntriesOf(rows: seq<Row>): (entries: seq<Fields>)
    ensures |entries| == |rows|
    ensures forall i :: 0 <= i < |rows| ==> entries[i] == rows[i].fields
  {
    seq(|rows|, i requires 0 <= i < |rows| => rows[i].fields)
  }

  /** The hash a row must link back to. */
  function Before(rows: seq<Row>, i: nat): Hash
    requires i <= |rows|
  {
    Head(EntriesOf(rows[..i]))
  }

  /** Every row links to the hash of everything before it and, where keys are configured, is signed. */
  ghost predicate ChainOk(rows: seq<Row>, ring: map<KeyId, Key>) {
    forall i :: 0 <= i < |rows| ==> FlawOf(rows[i], Before(rows, i), ring) == None
  }

  /** What each flaw of a row says: the first of version, links, signature and signer that does not fit. */
  lemma FlawsAreExact(row: Row, prev: Hash, ring: map<KeyId, Key>)
    ensures var flaw, hash := FlawOf(row, prev, ring), RowHash(prev, row.fields);
      var known, linked := row.version in {None, Some(1)}, row.prevHash == Some(prev) && row.rowHash == Some(hash);
      var signer := if row.keyId == None || row.keyId == Some("") then "legacy" else row.keyId.value;
      && (flaw.Some? && flaw.value.UnknownVersion? <==> !known)
      && (flaw == Some(HashChain) <==> known && !linked)
      && (flaw == Some(MacMissing) <==> known && linked && ring != map[] && row.mac == None)
      && (flaw == Some(MacWrong) <==> known && linked && ring != map[] && row.mac.Some?
                                      && !(signer in ring && row.mac == Some(MacOf(ring[signer], hash))))
      && (flaw == None <==> known && linked && (ring == map[] || (signer in ring && row.mac == Some(MacOf(ring[signer], hash)))))
  {
  }

  datatype ChainReport = Intact(head: Hash) | BrokenAt(index: nat, flaw: Flaw)

  lemma BeforeNext(rows: seq<Row>, i: nat)
    requires i < |rows|
    ensures Before(rows, i + 1) == RowHash(Before(rows, i), rows[i].fields)
  {
    var entries := EntriesOf(rows[..i + 1]);
    assert entries[..i] == EntriesOf(rows[..i]);
  }

  /** The checks on one row, in order. */
  method CheckRow(row: Row, expected: Hash, ring: map<KeyId, Key>) returns (flaw: Option<Flaw>)
    ensures flaw == FlawOf(row, expected, ring)
    ensures flaw == None ==> row.prevHash == Some(expected) && row.rowHash == Some(RowHash(expected, row.fields))
  {
    var version := CURRENT_VERSION;
    if row.version.Some? { version := row.version.value; }
    var recomputed := ComputeHash(version, expected, row.fields);
    if recomputed == None { return Some(UnknownVersion(version)); }
    if row.prevHash != Some(expected) || row.rowHash != recomputed { return Some(HashChain); }
    if ring != map[] {
      if row.mac == None { return Some(MacMissing); }
      var keyId := LEGACY;
      if row.keyId.Some? && row.keyId.value != "" { keyId := row.keyId.value; }
      if keyId !in ring || row.mac.value != MacOf(ring[keyId], row.rowHash.value) { return Some(MacWrong); }
    }
    return None;
  }

  /** The verification loop finds the first flawed row, or the head of an intact chain. */
  method VerifyRows(rows: seq<Row>, ring: map<KeyId, Key>) returns (report: ChainReport)
    ensures report.Intact? <==> ChainOk(rows, ring)
    ensures report.Intact? ==> report.head == Before(rows, |rows|)
    ensures report.BrokenAt? ==>
              && report.index < |rows| && ChainOk(rows[..report.index], ring)
              && FlawOf(rows[report.index], Before(rows, report.index), ring) == Some(report.flaw)
  {
    assert Before(rows, 0) == Genesis && ChainOk(rows[..0], ring);
    hide Before, FlawOf, ChainOk;
    var expected := Genesis;
    for i := 0 to |rows|
      invariant expected == Before(rows, i)
      invariant ChainOk(rows[..i], ring)
    {
      var flaw := CheckRow(rows[i], expected, ring);
      IntactUpTo(rows, i, ring);
      if flaw.Some? { return BrokenAt(i, flaw.value); }
      BeforeNext(rows, i);
      expected := rows[i].rowHash.value;
    }
    assert rows[..|rows|] == rows;
    return Intact(expected);
  }

  /** A prefix stays intact by one more row exactly when that row has no flaw; a flaw breaks the whole. */
  lemma IntactUpTo(rows: seq<Row>, n: nat, ring: map<KeyId, Key>)
    requires n < |rows| && ChainOk(rows[..n], ring)
    ensures ChainOk(rows[..n + 1], ring) <==> FlawOf(rows[n], Before(rows, n), ring) == None
    ensures ChainOk(rows, ring) ==> ChainOk(rows[..n + 1], ring)
  {
    hide FlawOf, Before;
    var next := rows[..n + 1];
    forall j | 0 <= j <= n
      ensures Before(next, j) == Before(rows, j) && (j < n ==> Before(rows[..n], j) == Before(rows, j))
    {
      BeforeOfPrefix(rows, n + 1, j);
      if j < n { BeforeOfPrefix(rows, n, j); }
    }
    forall j | 0 <= j < n
      ensures FlawOf(next[j], Before(next, j), ring) == None
    {
      assert FlawOf(rows[..n][j], Before(rows[..n], j), ring) == None;
    }
  }

  lemma BeforeOfPrefix(rows: seq<Row>, n: nat, j: nat)
    requires j <= n <= |rows|
    ensures Before(rows[..n], j) == Before(rows, j)
  {
    assert rows[..n][..j] == rows[..j];
  }

  // ----- what an intact chain pins down -----

  lemma {:induction false} HeadIsInjective(a: seq<Fields>, b: seq<Fields>)
    requires Head(a) == Head(b)
    ensures a == b
    decreases |a|
  {
    if a == [] || b == [] {
      assert a == b;
    } else {
      HeadIsInjective(a[..|a| - 1], b[..|b| - 1]);
      assert a == a[..|a| - 1] + [a[|a| - 1]] && b == b[..|b| - 1] + [b[|b| - 1]];
    }
  }

  lemma IntactHash(rows: seq<Row>, i: nat, ring: map<KeyId, Key>)
    requires ChainOk(rows, ring) && i < |rows|
    ensures rows[i].prevHash == Some(Before(rows, i)) && rows[i].rowHash == Some(Before(rows, i + 1))
  {
    assert FlawOf(rows[i], Before(rows, i), ring) == None;
    BeforeNext(rows, i);
  }

  lemma SameEntriesBefore(rows: seq<Row>, log: seq<Row>, n: nat, i: nat)
    requires i <= n <= |rows| && n <= |log| && EntriesOf(rows[..n]) == EntriesOf(log[..n])
    ensures Before(rows, i) == Before(log, i)
    ensures i < n ==> rows[i].fields == log[i].fields
  {
    assert EntriesOf(rows[..i]) == EntriesOf(rows[..n])[..i];
    assert EntriesOf(log[..i]) == EntriesOf(log[..n])[..i];
    if i < n { assert EntriesOf(rows[..n])[i] == EntriesOf(log[..n])[i]; }
  }

  /** Equal on what the hash covers, and on the links. */
  predicate SameEntry(a: Row, b: Row) {
    a.fields == b.fields && a.prevHash == b.prevHash && a.rowHash == b.rowHash
  }

  /** One recorded hash pins everything up to it: two intact chains that agree on the hash at one position
      hold the same entries, in the same order, up to there. */
  lemma HashPinsPrefix(rows: seq<Row>, log: seq<Row>, n: nat, ring: map<KeyId, Key>, logRing: map<KeyId, Key>)
    requires ChainOk(rows, ring) && ChainOk(log, logRing)
    requires 1 <= n <= |rows| && n <= |log| && rows[n - 1].rowHash == log[n - 1].rowHash
    ensures forall i :: 0 <= i < n ==> SameEntry(rows[i], log[i])
  {
    IntactHash(rows, n - 1, ring);
    IntactHash(log, n - 1, logRing);
    HeadIsInjective(EntriesOf(rows[..n]), EntriesOf(log[..n]));
    hide Before, ChainOk, EntriesOf;
    forall i | 0 <= i < n
      ensures SameEntry(rows[i], log[i])
    {
      IntactHash(rows, i, ring);
      IntactHash(log, i, logRing);
      SameEntriesBefore(rows, log, n, i);
      SameEntriesBefore(rows, log, n, i + 1);
    }
  }

  // ----- appending -----

  /** The row `_append_row` chains onto the tail under the primary key. */
  function NewRow(rows: seq<Row>, id: int, fields: Fields, ring: map<KeyId, Key>, primary: KeyId): Row
    requires primary in ring
  {
    var prev := if rows != [] && rows[|rows| - 1].rowHash.Some? then rows[|rows| - 1].rowHash.value else Genesis;
    var hash := RowHash(prev, fields);
    Row(id, fields, Some(prev), Some(hash), Some(MacOf(ring[primary], hash)), Some(primary), Some(CURRENT_VERSION))
  }

  /** Keys are added and never dropped or reassigned. */
  ghost predicate Grows(small: map<KeyId, Key>, large: map<KeyId, Key>) {
    forall k <- small :: k in large && large[k] == small[k]
  }

  lemma ChainOkUnderMoreKeys(rows: seq<Row>, small: map<KeyId, Key>, large: map<KeyId, Key>)
    requires ChainOk(rows, small) && Grows(small, large) && small != map[]
    ensures ChainOk(rows, large)
  {
    forall i | 0 <= i < |rows|
      ensures FlawOf(rows[i], Before(rows, i), large) == None
    {
      assert FlawOf(rows[i], Before(rows, i), small) == None;
      assert large != map[] by {
        var k :| k in small;
        assert k in large;
      }
    }
  }

  /** An append leaves the chain intact, its new head over one more entry. */
  lemma AppendKeepsChain(rows: seq<Row>, id: int, fields: Fields, ring: map<KeyId, Key>, primary: KeyId)
    requires primary in ring && primary != "" && ChainOk(rows, ring)
    ensures ChainOk(rows + [NewRow(rows, id, fields, ring, primary)], ring)
  {
    var n := |rows|;
    var after := rows + [NewRow(rows, id, fields, ring, primary)];
    if n > 0 { IntactHash(rows, n - 1, ring); }
    assert rows[..n] == rows && after[..n] == rows;
    assert FlawOf(after[n], Before(after, n), ring) == None;
    hide FlawOf, Before;
    IntactUpTo(after, n, ring);
    assert after[..n + 1] == after;
  }
}
