/** Stored secrets (services/secrets.py): the versioned text format, key rotation, and the context each
    value is bound to. AES-256-GCM is an authenticated free constructor; base64url is a parameter. */
module Secrets {

  import opened Common

  type Key = int

  type KeyId = string

  /** Byte strings: a nonce or any other, and what encryption yields. */
  datatype Bytes = Raw(n: int) | Sealed(key: Key, nonce: Bytes, value: string, context: string)

  /** `AESGCM.decrypt`: only the key, nonce and context of the encryption open it. */
  function Open(key: Key, nonce: Bytes, sealed: Bytes, context: string): Option<string> {
    if sealed.Sealed? && sealed.key == key && sealed.nonce == nonce && sealed.context == context
    then Some(sealed.value) else None
  }

  /** base64url (section 5 of RFC 4648) as a pair of functions. */
  datatype Codec = Codec(encode: Bytes -> string, decode: string -> Option<Bytes>)

  ghost predicate CodecOk(c: Codec) {
    forall b :: c.decode(c.encode(b)) == Some(b) && ':' !in c.encode(b)
  }

  datatype Error = NoBinding | KeyMissing | BadKeyring | Undecryptable

  datatype Result = Ok(value: string) | Failed(error: Error)

  const V2 := "enc:v2:"

  const V1 := "enc:v1:"

  const LEGACY: KeyId := "legacy"

  predicate StartsWith(s: string, prefix: string) {
    |s| >= |prefix| && s[..|prefix|] == prefix
  }

  // ----- the key ring -----

  predicate GoodId(id: KeyId) {
    id != "" && ':' !in id
  }

  /** The configured keys: the legacy one and the named entries, each with its decoded key if it decodes. */
  datatype Config = Config(legacy: Option<Option<Key>>, entries: seq<(KeyId, Option<Key>)>, primary: KeyId)

  /** The first `n` named entries over the legacy key. */
  function RingOf(config: Config, n: nat): map<KeyId, Key>
    requires n <= |config.entries| && WellFormed(config, n)
  {
    if n == 0 then (if config.legacy.Some? then map[LEGACY := config.legacy.value.value] else map[])
    else RingOf(config, n - 1)[config.entries[n - 1].0 := config.entries[n - 1].1.value]
  }

  predicate WellFormed(config: Config, n: nat)
    requires n <= |config.entries|
  {
    && (config.legacy.Some? ==> config.legacy.value.Some?)
    && forall i :: 0 <= i < n ==> GoodId(config.entries[i].0) && config.entries[i].1.Some?
  }

  /** `keyring`: None where it raises. */
  method Keyring(config: Config) returns (ring: Option<map<KeyId, Key>>)
    ensures ring == if WellFormed(config, |config.entries|) then Some(RingOf(config, |config.entries|)) else None
  {
    var r: map<KeyId, Key> := map[];
    if config.legacy.Some? {
      if config.legacy.value == None { return None; }
      r := r[LEGACY := config.legacy.value.value];
    }
    for i := 0 to |config.entries|
      invariant WellFormed(config, i) && r == RingOf(config, i)
    {
      var (id, key) := config.entries[i];
      if id == "" || ':' in id { return None; }
      if key == None { return None; }
      r := r[id := key.value];
    }
    return Some(r);
  }

  /** Every id of a ring is non-empty and free of the separator, and names the key of its last entry, or
      the legacy key where no entry takes that name. */
  lemma {:induction false} RingHoldsLastEntries(config: Config, n: nat, id: KeyId)
    requires n <= |config.entries| && WellFormed(config, n)
    ensures id in RingOf(config, n) ==> GoodId(id)
    ensures id in RingOf(config, n)
            <==> (id == LEGACY && config.legacy.Some?) || exists i :: 0 <= i < n && config.entries[i].0 == id
    ensures forall i :: 0 <= i < n && config.entries[i].0 == id && (forall j :: i < j < n ==> config.entries[j].0 != id)
              ==> RingOf(config, n)[id] == config.entries[i].1.value
  {
    if n > 0 { RingHoldsLastEntries(config, n - 1, id); }
  }

  /** `primary_key_id`. */
  function Primary(config: Config, ring: map<KeyId, Key>): (r: Option<Option<KeyId>>)
    ensures r.Some? && r.value.Some? ==> r.value.value in ring
  {
    if config.primary != "" then (if config.primary in ring then Some(Some(config.primary)) else None)
    else if config.entries != [] then None
    else if LEGACY in ring then Some(Some(LEGACY))
    else Some(None)
  }

  // ----- the text format -----

  /** Where `str.partition(":")` splits: the first separator, or the end. */
  function Split(s: string): (i: nat)
    ensures i <= |s| && (i < |s| ==> s[i] == ':') && forall k :: 0 <= k < i ==> s[k] != ':'
  {
    if s == "" || s[0] == ':' then 0 else 1 + Split(s[1..])
  }

  function Head(s: string): string { s[..Split(s)] }

  function Tail(s: string): string { if Split(s) < |s| then s[Split(s) + 1..] else "" }

  lemma DistinctMarks(s: string)
    requires StartsWith(s, V2)
    ensures !StartsWith(s, V1)
  {
    assert s[..|V2|][5] == '2' && V1[5] == '1' && |V1| == |V2|;
  }

  lemma PartitionJoins(a: string, b: string)
    requires ':' !in a
    ensures Head(a + ":" + b) == a && Tail(a + ":" + b) == b
  {
    var s := a + ":" + b;
    assert s[|a|] == ':';
    assert forall k :: 0 <= k < |a| ==> s[k] == a[k];
    assert Split(s) == |a|;
  }

  function Written(id: KeyId, nonce: Bytes, sealed: Bytes, c: Codec): string {
    V2 + id + ":" + c.encode(nonce) + ":" + c.encode(sealed)
  }

  /** The parser undoes the printer: ids never hold the separator and base64url never emits it. */
  lemma FormatRoundTrips(id: KeyId, nonce: Bytes, sealed: Bytes, c: Codec)
    requires GoodId(id) && CodecOk(c)
    ensures var stored := Written(id, nonce, sealed, c);
      && StartsWith(stored, V2) && !StartsWith(stored, V1)
      && var body := stored[|V2|..];
         && Head(body) == id && Head(Tail(body)) == c.encode(nonce) && Tail(Tail(body)) == c.encode(sealed)
  {
    var n, s := c.encode(nonce), c.encode(sealed);
    assert c.decode(n) == Some(nonce) && c.decode(s) == Some(sealed);
    var stored := Written(id, nonce, sealed, c);
    var rest := n + ":" + s;
    assert stored == V2 + (id + ":" + rest);
    assert stored[|V2|..] == id + ":" + rest;
    PartitionJoins(id, rest);
    PartitionJoins(n, s);
    DistinctMarks(stored);
  }

  // ----- encryption and decryption -----

  function Encrypt(value: string, context: string, nonce: Bytes, config: Config, ring: map<KeyId, Key>,
                   plaintextAllowed: bool, c: Codec): Result
  {
    if context == "" then Failed(NoBinding)
    else
      match Primary(config, ring)
      case None => Failed(BadKeyring)
      case Some(None) => if plaintextAllowed then Ok(value) else Failed(KeyMissing)
      case Some(Some(id)) => Ok(Written(id, nonce, Sealed(ring[id], nonce, value, context), c))
  }

  /** `_aesgcm_decrypt`. */
  function OpenText(key: Key, nonce: string, sealed: string, context: string, c: Codec): Option<string> {
    var n, s := c.decode(nonce), c.decode(sealed);
    if n == None || s == None then None else Open(key, n.value, s.value, context)
  }

  /** A key opens a value that names none. */
  predicate OpensWith(key: Key, stored: string, context: string, c: Codec, value: string)
    requires StartsWith(stored, V1)
  {
    OpenText(key, Head(stored[|V1|..]), Tail(stored[|V1|..]), context, c) == Some(value)
  }

  /** Decryption of a value that names its key. */
  function DecryptNamed(stored: string, context: string, ring: map<KeyId, Key>, c: Codec): Result
    requires StartsWith(stored, V2)
  {
    var body := stored[|V2|..];
    if Head(body) !in ring then Failed(KeyMissing)
    else
      match OpenText(ring[Head(body)], Head(Tail(body)), Tail(Tail(body)), context, c)
      case None => Failed(Undecryptable)
      case Some(value) => Ok(value)
  }

  /** `decrypt`; `keys` lists the ring's keys in its order. A value without a key id is opened exactly when
      some key of the ring authenticates it, and then by one that does. */
  method Decrypt(stored: string, context: string, ring: map<KeyId, Key>, keys: seq<Key>, c: Codec) returns (r: Result)
    requires forall k :: k in keys <==> k in ring.Values
    ensures context == "" <==> r == Failed(NoBinding)
    ensures context != "" && StartsWith(stored, V2) ==> r == DecryptNamed(stored, context, ring, c)
    ensures context != "" && !StartsWith(stored, V2) && StartsWith(stored, V1) ==>
              && (r.Ok? <==> exists k, v :: k in ring.Values && OpensWith(k, stored, context, c, v))
              && (r.Ok? ==> exists k :: k in ring.Values && OpensWith(k, stored, context, c, r.value))
    ensures context != "" && !StartsWith(stored, V2) && StartsWith(stored, V1) && ring == map[] ==>
              r == Failed(KeyMissing)
    ensures context != "" && !StartsWith(stored, V2) && !StartsWith(stored, V1) ==> r == Ok(stored)
  {
    if context == "" { return Failed(NoBinding); }
    if StartsWith(stored, V2) {
      var body := stored[|V2|..];
      if Head(body) !in ring { return Failed(KeyMissing); }
      var text := OpenText(ring[Head(body)], Head(Tail(body)), Tail(Tail(body)), context, c);
      if text == None { return Failed(Undecryptable); }
      return Ok(text.value);
    }
    if StartsWith(stored, V1) {
      if ring == map[] { return Failed(KeyMissing); }
      for i := 0 to |keys|
        invariant forall j, v :: 0 <= j < i ==> !OpensWith(keys[j], stored, context, c, v)
      {
        var text := OpenText(keys[i], Head(stored[|V1|..]), Tail(stored[|V1|..]), context, c);
        if text.Some? {
          assert keys[i] in keys && OpensWith(keys[i], stored, context, c, text.value);
          return Ok(text.value);
        }
      }
      return Failed(Undecryptable);
    }
    return Ok(stored);
  }

  /** Under any later ring, a value encrypted under a named key decrypts to itself exactly when the ring
      still maps that id to that key and the context is the one it was bound to; otherwise it fails. */
  lemma RoundTripUnderRotation(value: string, context: string, nonce: Bytes, config: Config, ring: map<KeyId, Key>,
                               plaintextAllowed: bool, c: Codec, later: map<KeyId, Key>, reader: string)
    requires CodecOk(c) && (forall id <- ring :: GoodId(id)) && context != "" && reader != ""
    requires Primary(config, ring).Some? && Primary(config, ring).value.Some?
    ensures Encrypt(value, context, nonce, config, ring, plaintextAllowed, c).Ok?
    ensures var id := Primary(config, ring).value.value;
      var stored := Encrypt(value, context, nonce, config, ring, plaintextAllowed, c).value;
      && StartsWith(stored, V2)
      && (DecryptNamed(stored, reader, later, c) == Ok(value)
          <==> id in later && later[id] == ring[id] && reader == context)
      && (DecryptNamed(stored, reader, later, c) == Ok(value) || DecryptNamed(stored, reader, later, c).Failed?)
  {
    hide Written, DecryptNamed, CodecOk, StartsWith;
    var id := Primary(config, ring).value.value;
    DecryptWritten(id, nonce, Sealed(ring[id], nonce, value, context), c, later, reader);
  }

  /** What a value is stored under: the primary key the configuration names, or the legacy key where neither
      a primary nor named keys are configured; without any key it is refused, or stored as it is. A primary
      that is missing from the ring, or not named beside named keys, is refused. */
  lemma EncryptsUnderThePrimary(value: string, context: string, nonce: Bytes, config: Config, ring: map<KeyId, Key>,
                                plaintextAllowed: bool, c: Codec)
    requires CodecOk(c) && (forall id <- ring :: GoodId(id)) && context != ""
    ensures var r := Encrypt(value, context, nonce, config, ring, plaintextAllowed, c);
      && (r == Failed(BadKeyring) <==>
            if config.primary == "" then config.entries != [] else config.primary !in ring)
      && (config.primary != "" && config.primary in ring ==> r.Ok? && IsSealedBy(r.value, config.primary, ring, value, context, c))
      && (config.primary == "" && config.entries == [] && "legacy" in ring ==>
            r.Ok? && IsSealedBy(r.value, "legacy", ring, value, context, c))
      && (config.primary == "" && config.entries == [] && "legacy" !in ring ==>
            r == if plaintextAllowed then Ok(value) else Failed(KeyMissing))
  {
    hide Written, DecryptNamed, CodecOk, StartsWith, Head;
    var primary := Primary(config, ring);
    if primary.Some? && primary.value.Some? {
      var id := primary.value.value;
      DecryptWritten(id, nonce, Sealed(ring[id], nonce, value, context), c, map[id := ring[id]], context);
      FormatRoundTrips(id, nonce, Sealed(ring[id], nonce, value, context), c);
    }
  }

  /** The text names the key and reads back under it. */
  predicate IsSealedBy(stored: string, id: KeyId, ring: map<KeyId, Key>, value: string, context: string, c: Codec)
    requires id in ring
  {
    && StartsWith(stored, V2) && Head(stored[|V2|..]) == id
    && DecryptNamed(stored, context, map[id := ring[id]], c) == Ok(value)
  }

  /** Reading back what was written under an id: the ring's key for that id is tried. */
  lemma DecryptWritten(id: KeyId, nonce: Bytes, sealed: Bytes, c: Codec, later: map<KeyId, Key>, reader: string)
    requires CodecOk(c) && GoodId(id)
    ensures var stored := Written(id, nonce, sealed, c);
      && StartsWith(stored, V2)
      && DecryptNamed(stored, reader, later, c)
         == if id !in later then Failed(KeyMissing)
            else match Open(later[id], nonce, sealed, reader)
                 case None => Failed(Undecryptable)
                 case Some(value) => Ok(value)
  {
    FormatRoundTrips(id, nonce, sealed, c);
    assert c.decode(c.encode(nonce)) == Some(nonce) && c.decode(c.encode(sealed)) == Some(sealed);
    hide Head, Tail, Written, CodecOk, Open;
  }

  /** What Decrypt makes of a text no key could have opened. */
  predicate Marked(stored: string) {
    StartsWith(stored, V2) || StartsWith(stored, V1)
  }

  /** With no key configured and plaintext allowed, a value is stored as it is; it reads back unless it
      happens to look encrypted, and then it does not read back at all. */
  method StoreAndLoadPlaintext(value: string, context: string, config: Config, c: Codec, nonce: Bytes)
    returns (r: Result)
    requires context != "" && Primary(config, map[]) == Some(None)
    ensures Encrypt(value, context, nonce, config, map[], true, c) == Ok(value)
    ensures r == Ok(value) <==> !Marked(value)
    ensures Marked(value) ==> r == Failed(KeyMissing)
  {
    r := Decrypt(value, context, map[], [], c);
  }
}
