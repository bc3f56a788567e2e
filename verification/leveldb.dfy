/**
 The LevelDB store: silos and keys flattened into one byte string, proved to behave as a map of maps.
 */
module LevelDb {
  import opened Text
  import opened Splitting
  import opened SiloMaps

  type Bytes = seq<bv8>
  type Database = map<Bytes, Bytes>
  type Entries = EntriesOf<Bytes>
  type Silos = SilosOf<Bytes>

  // The UTF-8 encoding of the character U+00DA.
  const SILO_KEY_DELIMITER: Bytes := [0xC3, 0x9A]

  predicate Free(s: Bytes) {
    IsFree(s, SILO_KEY_DELIMITER)
  }

  function SiloPrefix(silo: Bytes): Bytes {
    silo + SILO_KEY_DELIMITER
  }

  function EncodeKey(silo: Bytes, key: Bytes): Bytes {
    SiloPrefix(silo) + key
  }

  function DecodeKey(rawKey: Bytes): Option<(Bytes, Bytes)> {
    var parts := Split(rawKey, SILO_KEY_DELIMITER);
    if |parts| != 2 then None else Some((parts[0], parts[1]))
  }

  lemma DelimiterUnbordered()
    ensures Unbordered(SILO_KEY_DELIMITER)
  {
    var d := SILO_KEY_DELIMITER;
    forall n | 0 < n < |d|
      ensures d[..n] != d[|d| - n..]
    {
      assert d[..n][0] != d[|d| - n..][0];
    }
  }

  lemma DecodeShape(rawKey: Bytes)
    ensures DecodeKey(rawKey).Some? ==>
      var (silo, key) := DecodeKey(rawKey).value;
      Free(silo) && Free(key) && rawKey == EncodeKey(silo, key)
  {
    var parts := Split(rawKey, SILO_KEY_DELIMITER);
    PartsAreFree(rawKey, SILO_KEY_DELIMITER);
    if |parts| == 2 {
      assert Join(parts[1..], SILO_KEY_DELIMITER) == parts[1];
    }
  }

  /** If the first part ends within the silo, the delimiter of the silo is left in the second. */
  lemma LeftInSecond(silo: Bytes, key: Bytes, first: Bytes, second: Bytes)
    requires EncodeKey(silo, key) == EncodeKey(first, second)
    requires Free(first) && !Free(silo)
    ensures !Free(second)
  {
    var d, rawKey := SILO_KEY_DELIMITER, EncodeKey(silo, key);
    DelimiterUnbordered();
    IndexAfterFree(first, d, second);
    var i := Index(silo, d).value;
    assert rawKey[i..i + 2] == silo[i..i + 2];
    assert OccursAt(rawKey, d, i);
    assert |first| <= i;
    var j := |silo| - |first| - 2;
    assert second[j..j + 2] == rawKey[|silo|..|silo| + 2] == d;
    assert OccursAt(second, d, j);
  }

  /** Decoding undoes encoding if both parts are free of the delimiter, and is an error otherwise. */
  lemma DecodeEncode(silo: Bytes, key: Bytes)
    ensures DecodeKey(EncodeKey(silo, key)) == if Free(silo) && Free(key) then Some((silo, key)) else None
  {
    var d, rawKey := SILO_KEY_DELIMITER, EncodeKey(silo, key);
    DelimiterUnbordered();
    DecodeShape(rawKey);
    if Free(silo) {
      SplitAfterFree(silo, d, key);
      var rest := Split(key, d);
      assert Split(rawKey, d) == [silo] + rest;
      if !Free(key) {
        assert |rest| >= 2;
      }
    } else if DecodeKey(rawKey).Some? {
      var (first, second) := DecodeKey(rawKey).value;
      LeftInSecond(silo, key, first, second);
      assert false;
    }
  }

  /** A raw key has the prefix of a silo exactly when the silo is its own. */
  lemma PrefixIffSilo(silo: Bytes, otherSilo: Bytes, key: Bytes)
    requires Free(silo) && Free(otherSilo)
    ensures SiloPrefix(silo) <= EncodeKey(otherSilo, key) <==> silo == otherSilo
  {
    var rawKey, d := EncodeKey(otherSilo, key), SILO_KEY_DELIMITER;
    if SiloPrefix(silo) <= rawKey {
      DelimiterUnbordered();
      var rest := rawKey[|silo| + 2..];
      assert rawKey == silo + d + rest;
      IndexAfterFree(silo, d, rest);
      IndexAfterFree(otherSilo, d, key);
      assert silo == rawKey[..|silo|] && otherSilo == rawKey[..|silo|];
    }
  }

  // ---- Scans ----

  predicate AllDecode(db: Database, prefix: Bytes) {
    forall rawKey <- db :: prefix <= rawKey ==> DecodeKey(rawKey).Some?
  }

  predicate Decodable(db: Database) {
    forall rawKey <- db :: DecodeKey(rawKey).Some?
  }

  function Suffixes(db: Database, prefix: Bytes): (suffixes: set<Bytes>)
    ensures forall key :: key in suffixes <==> prefix + key in db
  {
    var suffixes := set rawKey | rawKey in db && prefix <= rawKey :: rawKey[|prefix|..];
    assert forall rawKey <- db | prefix <= rawKey :: rawKey == prefix + rawKey[|prefix|..];
    assert forall key | prefix + key in db :: (prefix + key)[|prefix|..] == key;
    suffixes
  }

  function Under(db: Database, prefix: Bytes): Entries {
    map key | key in Suffixes(db, prefix) :: db[prefix + key]
  }

  /** The entries under the prefix of a silo, or an error if one of their keys does not decode. */
  function Scanned(db: Database, silo: Bytes): Option<Entries> {
    if AllDecode(db, SiloPrefix(silo)) then Some(Under(db, SiloPrefix(silo))) else None
  }

  function SiloNames(db: Database): set<Bytes> {
    set rawKey | rawKey in db && DecodeKey(rawKey).Some? :: DecodeKey(rawKey).value.0
  }

  /** All entries by silo, or an error if a key does not decode. */
  function GloballyScanned(db: Database): Option<Silos> {
    if Decodable(db) then Some(map silo | silo in SiloNames(db) :: Under(db, SiloPrefix(silo))) else None
  }

  /** A key that decodes and has a silo's prefix decodes to that silo and the rest. */
  lemma DecodeUnderPrefix(silo: Bytes, rawKey: Bytes)
    requires SiloPrefix(silo) <= rawKey && DecodeKey(rawKey).Some?
    ensures DecodeKey(rawKey).value == (silo, rawKey[|SiloPrefix(silo)|..])
  {
    var key := rawKey[|SiloPrefix(silo)|..];
    assert rawKey == EncodeKey(silo, key);
    DecodeEncode(silo, key);
  }

  class LevelDB {
    var database: Database

    method GetSiloString(silo: Bytes, key: Bytes) returns (value: Option<Bytes>)
      ensures value == RawLookup(database, silo, key)
    {
      var rawKey := EncodeKey(silo, key);
      value := if rawKey in database then Some(database[rawKey]) else None;
    }

    method PutSiloString(silo: Bytes, key: Bytes, value: Bytes)
      modifies this
      ensures database == old(database)[EncodeKey(silo, key) := value]
    {
      database := database[EncodeKey(silo, key) := value];
    }

    method DeleteSiloString(silo: Bytes, key: Bytes)
      modifies this
      ensures database == old(database) - {EncodeKey(silo, key)}
    {
      database := database - {EncodeKey(silo, key)};
    }

    /** The iterator visits the keys with the prefix; the order does not matter. */
    method ScanSilo(silo: Bytes) returns (entries: Option<Entries>)
      ensures entries == Scanned(database, silo)
    {
      var prefix := SiloPrefix(silo);
      var found: Entries := map[];
      var keys := set rawKey | rawKey in database && prefix <= rawKey;
      var remaining := keys;
      while remaining != {}
        invariant remaining <= keys
        invariant forall rawKey <- keys - remaining :: DecodeKey(rawKey).Some?
        invariant forall key :: key in found <==> prefix + key in keys - remaining
        invariant forall key <- found :: found[key] == database[prefix + key]
      {
        var rawKey :| rawKey in remaining;
        var decoded := DecodeKey(rawKey);
        if decoded.None? {
          return None;
        }
        DecodeUnderPrefix(silo, rawKey);
        assert rawKey == prefix + decoded.value.1;
        found := found[decoded.value.1 := database[rawKey]];
        remaining := remaining - {rawKey};
        assert forall key :: prefix + key == rawKey ==> key == rawKey[|prefix|..];
      }
      assert AllDecode(database, prefix);
      assert found == Under(database, prefix);
      entries := Some(found);
    }

    method GlobalScan() returns (entries: Option<Silos>)
      ensures entries == GloballyScanned(database)
    {
      var found: Silos := map[];
      ghost var seen: Database := map[];
      var remaining := database.Keys;
      while remaining != {}
        invariant remaining <= database.Keys && seen == database - remaining
        invariant Represents(seen, found)
      {
        var rawKey :| rawKey in remaining;
        var decoded := DecodeKey(rawKey);
        if decoded.None? {
          return None;
        }
        DecodeShape(rawKey);
        var (silo, key) := decoded.value;
        var entry := if silo in found then found[silo] else map[];
        assert seen[rawKey := database[rawKey]] == database - (remaining - {rawKey});
        ChangeRepresents(seen, found, seen[rawKey := database[rawKey]], silo, key, entry[key := database[rawKey]]);
        found := found[silo := entry[key := database[rawKey]]];
        seen := seen[rawKey := database[rawKey]];
        remaining := remaining - {rawKey};
      }
      assert seen == database;
      RepresentedIsScanned(database, found);
      entries := Some(found);
    }
  }

  // ---- The map of maps a database stands for ----

  function RawLookup(db: Database, silo: Bytes, key: Bytes): Option<Bytes> {
    if EncodeKey(silo, key) in db then Some(db[EncodeKey(silo, key)]) else None
  }

  /** The map of maps that a database stands for. */
  ghost predicate Represents(db: Database, silos: Silos) {
    && Decodable(db) && NoEmptySilo(silos)
    && forall silo, key :: Lookup(silos, silo, key) == RawLookup(db, silo, key)
  }

  /** It is what a global scan finds. */
  lemma RepresentedIsScanned(db: Database, silos: Silos)
    requires Represents(db, silos)
    ensures GloballyScanned(db) == Some(silos)
  {
    var scanned := GloballyScanned(db).value;
    forall silo, key
      ensures Lookup(scanned, silo, key) == Lookup(silos, silo, key)
    {
      assert Lookup(silos, silo, key) == RawLookup(db, silo, key);
      DecodeEncode(silo, key);
      assert SiloPrefix(silo) + key == EncodeKey(silo, key);
    }
    forall silo <- scanned
      ensures scanned[silo] != map[]
    {
      var rawKey :| rawKey in db && DecodeKey(rawKey).value.0 == silo;
      DecodeShape(rawKey);
      assert DecodeKey(rawKey).value.1 in scanned[silo];
    }
    SameLookups(scanned, silos);
  }

  // ---- Refinement over runs ----

  datatype Op = Get(silo: Bytes, key: Bytes) | Put(silo: Bytes, key: Bytes, value: Bytes)
              | Delete(silo: Bytes, key: Bytes) | ScanOne(silo: Bytes) | ScanAll

  datatype Answer = Value(value: Option<Bytes>) | Done | One(entries: Option<Entries>) | All(silos: Option<Silos>)

  predicate DelimiterFree(op: Op) {
    (op.Get? || op.Put? || op.Delete? ==> Free(op.silo) && Free(op.key)) && (op.ScanOne? ==> Free(op.silo))
  }

  /** The store. */
  function FlatStep(db: Database, op: Op): (Database, Answer) {
    match op
    case Get(silo, key) => (db, Value(RawLookup(db, silo, key)))
    case Put(silo, key, value) => (db[EncodeKey(silo, key) := value], Done)
    case Delete(silo, key) => (db - {EncodeKey(silo, key)}, Done)
    case ScanOne(silo) => (db, One(Scanned(db, silo)))
    case ScanAll => (db, All(GloballyScanned(db)))
  }

  /** The map of maps, which has no empty silo and no errors. */
  function NestedStep(silos: Silos, op: Op): (Silos, Answer) {
    match op
    case Get(silo, key) => (silos, Value(Lookup(silos, silo, key)))
    case Put(silo, key, value) => (Stored(silos, silo, key, value), Done)
    case Delete(silo, key) => (Removed(silos, silo, key), Done)
    case ScanOne(silo) => (silos, One(Some(SiloOf(silos, silo))))
    case ScanAll => (silos, All(Some(silos)))
  }

  function FlatRun(db: Database, ops: seq<Op>): seq<Answer>
    decreases |ops|
  {
    if ops == [] then []
    else [FlatStep(db, ops[0]).1] + FlatRun(FlatStep(db, ops[0]).0, ops[1..])
  }

  function NestedRun(silos: Silos, ops: seq<Op>): seq<Answer>
    decreases |ops|
  {
    if ops == [] then []
    else [NestedStep(silos, ops[0]).1] + NestedRun(NestedStep(silos, ops[0]).0, ops[1..])
  }

  lemma EncodeInjective(silo: Bytes, key: Bytes, silo': Bytes, key': Bytes)
    requires Free(silo) && Free(key)
    ensures EncodeKey(silo, key) == EncodeKey(silo', key') <==> silo == silo' && key == key'
  {
    DecodeEncode(silo, key);
    DecodeEncode(silo', key');
  }

  /** A change at one key shows at that key only. */
  lemma ChangeRepresents(db: Database, silos: Silos, db': Database, silo: Bytes, key: Bytes, entries: Entries)
    requires Represents(db, silos) && Free(silo) && Free(key)
    requires forall rawKey | rawKey != EncodeKey(silo, key) ::
      (rawKey in db' <==> rawKey in db) && (rawKey in db ==> db'[rawKey] == db[rawKey])
    requires forall k | k != key :: Lookup(map[silo := entries], silo, k) == Lookup(silos, silo, k)
    requires Lookup(map[silo := entries], silo, key) == RawLookup(db', silo, key)
    ensures Represents(db', Filed(silos, silo, entries))
  {
    DecodeEncode(silo, key);
    forall s, k
      ensures Lookup(Filed(silos, silo, entries), s, k) == RawLookup(db', s, k)
    {
      assert Lookup(silos, s, k) == RawLookup(db, s, k);
      EncodeInjective(silo, key, s, k);
      FiledLookup(silos, silo, entries, s, k);
    }
  }

  lemma FiledLookup(silos: Silos, silo: Bytes, entries: Entries, s: Bytes, k: Bytes)
    ensures Lookup(Filed(silos, silo, entries), s, k)
      == if s == silo then Lookup(map[silo := entries], silo, k) else Lookup(silos, s, k)
  {
  }

  /** A prefix scan of a silo sees that silo, whole, and nothing of any other. */
  lemma ScanOneRepresents(db: Database, silos: Silos, silo: Bytes)
    requires Represents(db, silos)
    ensures Scanned(db, silo) == Some(SiloOf(silos, silo))
  {
    var scanned, entries := Under(db, SiloPrefix(silo)), SiloOf(silos, silo);
    forall key
      ensures key in scanned <==> key in entries
      ensures key in scanned && key in entries ==> scanned[key] == entries[key]
    {
      assert Lookup(silos, silo, key) == RawLookup(db, silo, key);
      assert SiloPrefix(silo) + key == EncodeKey(silo, key);
    }
    assert scanned == entries;
  }

  lemma StepRefines(db: Database, silos: Silos, op: Op)
    requires Represents(db, silos) && DelimiterFree(op)
    ensures FlatStep(db, op).1 == NestedStep(silos, op).1
    ensures Represents(FlatStep(db, op).0, NestedStep(silos, op).0)
  {
    match op {
      case Get(silo, key) => assert Lookup(silos, silo, key) == RawLookup(db, silo, key);
      case Put(silo, key, value) =>
        ChangeRepresents(db, silos, db[EncodeKey(silo, key) := value], silo, key, SiloOf(silos, silo)[key := value]);
      case Delete(silo, key) =>
        ChangeRepresents(db, silos, db - {EncodeKey(silo, key)}, silo, key, SiloOf(silos, silo) - {key});
      case ScanOne(silo) => ScanOneRepresents(db, silos, silo);
      case ScanAll => RepresentedIsScanned(db, silos);
    }
  }

  lemma {:induction false} RunRefinesFrom(db: Database, silos: Silos, ops: seq<Op>)
    requires Represents(db, silos) && forall op <- ops :: DelimiterFree(op)
    ensures FlatRun(db, ops) == NestedRun(silos, ops)
    decreases |ops|
  {
    if ops != [] {
      StepRefines(db, silos, ops[0]);
      RunRefinesFrom(FlatStep(db, ops[0]).0, NestedStep(silos, ops[0]).0, ops[1..]);
    }
  }

  /** Over every run of operations free of the delimiter, the flat store answers as a map of maps. */
  lemma RunRefines(ops: seq<Op>)
    requires forall op <- ops :: DelimiterFree(op)
    ensures FlatRun(map[], ops) == NestedRun(map[], ops)
  {
    RunRefinesFrom(map[], map[], ops);
  }

  /** A scan of a silo fails as soon as one of its keys holds the delimiter, and always if it holds it itself. */
  lemma DelimiterBreaksSilo(db: Database, silo: Bytes)
    ensures Scanned(db, silo).Some? <==> forall key :: EncodeKey(silo, key) in db ==> Free(silo) && Free(key)
  {
    forall rawKey <- db | SiloPrefix(silo) <= rawKey
      ensures rawKey == EncodeKey(silo, rawKey[|SiloPrefix(silo)|..])
    {
    }
    forall key | EncodeKey(silo, key) in db
      ensures DecodeKey(EncodeKey(silo, key)).Some? <==> Free(silo) && Free(key)
    {
      DecodeEncode(silo, key);
    }
  }

  /** Among encoded keys, one with the delimiter in its silo or key makes every global scan fail. */
  lemma DelimiterBreaksScan(db: Database)
    requires forall rawKey <- db :: exists silo, key :: rawKey == EncodeKey(silo, key)
    ensures GloballyScanned(db).Some? <==>
      forall silo, key :: EncodeKey(silo, key) in db ==> Free(silo) && Free(key)
  {
    forall silo, key | EncodeKey(silo, key) in db
      ensures DecodeKey(EncodeKey(silo, key)).Some? <==> Free(silo) && Free(key)
    {
      DecodeEncode(silo, key);
    }
  }
}
