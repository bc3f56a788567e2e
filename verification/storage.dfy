/** The datastore with its single retry, whose failed writes may still have taken effect. */
module DatastoreDb {
  import opened Text
  import opened SiloMaps

  type Silos = SilosOf<string>

  datatype DsError = NoSuchEntity | InvalidEntityType | InvalidKey | OtherError(text: string)

  predicate ShouldRetry(err: DsError) {
    err != NoSuchEntity && err != InvalidEntityType && err != InvalidKey
  }

  /** What one call to the service answers, and whether a write took effect there. */
  datatype Attempt = Attempt(err: Option<DsError>, applied: bool)

  /** The calls an operation makes: the second one happens only as a retry. */
  datatype Attempts = Attempts(first: Attempt, second: Attempt) {
    predicate Retried() {
      first.err.Some? && ShouldRetry(first.err.value)
    }

    function Error(): Option<DsError> {
      if Retried() then second.err else first.err
    }

    predicate TookEffect() {
      first.applied || (Retried() && second.applied)
    }

    /** A write that the service acknowledges took effect. */
    predicate Sensible() {
      (first.err.None? ==> first.applied) && (second.err.None? ==> second.applied)
    }
  }

  /** The remote service: entities by namespace and key name. */
  class Datastorer {
    var entities: Silos
    var connections: nat

    method Connect()
      modifies this`connections
      ensures connections == old(connections) + 1
    {
      connections := connections + 1;
    }

    method Get(namespace: string, name: string, fault: Option<DsError>)
      returns (value: string, err: Option<DsError>)
      ensures err == if fault.Some? then fault
                     else if Lookup(entities, namespace, name).None? then Some(NoSuchEntity) else None
      ensures err.None? ==> Lookup(entities, namespace, name) == Some(value)
    {
      if fault.Some? {
        return "", fault;
      }
      if namespace !in entities || name !in entities[namespace] {
        return "", Some(NoSuchEntity);
      }
      return entities[namespace][name], None;
    }

    method Put(namespace: string, name: string, value: string, attempt: Attempt) returns (err: Option<DsError>)
      modifies this`entities
      ensures entities == if attempt.applied then Stored(old(entities), namespace, name, value) else old(entities)
      ensures err == attempt.err
    {
      if attempt.applied {
        entities := Stored(entities, namespace, name, value);
      }
      err := attempt.err;
    }

    method Delete(namespace: string, name: string, attempt: Attempt) returns (err: Option<DsError>)
      modifies this`entities
      ensures entities == if attempt.applied then Removed(old(entities), namespace, name) else old(entities)
      ensures err == attempt.err
    {
      if attempt.applied {
        entities := Removed(entities, namespace, name);
      }
      err := attempt.err;
    }
  }

  const MAX_ATTEMPT_COUNT := 2

  lemma StoredTwice(silos: Silos, silo: string, key: string, value: string)
    ensures Stored(Stored(silos, silo, key, value), silo, key, value) == Stored(silos, silo, key, value)
  {
    var entries := SiloOf(silos, silo)[key := value];
    assert entries[key] == value && entries != map[];
    assert SiloOf(Stored(silos, silo, key, value), silo) == entries;
    assert entries[key := value] == entries;
  }

  lemma RemovedTwice(silos: Silos, silo: string, key: string)
    ensures Removed(Removed(silos, silo, key), silo, key) == Removed(silos, silo, key)
  {
    var entries := SiloOf(silos, silo) - {key};
    assert SiloOf(Removed(silos, silo, key), silo) == entries;
    assert entries - {key} == entries;
  }

  class DatastoreDB {
    const datastorer: Datastorer

    constructor (datastorer: Datastorer)
      ensures this.datastorer == datastorer
    {
      this.datastorer := datastorer;
    }

    /** A reading fault is retried once; a missing entity is not. */
    method GetSiloString(silo: string, key: string, faults: seq<Option<DsError>>)
      returns (value: string, err: Option<DsError>)
      requires |faults| == MAX_ATTEMPT_COUNT
      modifies datastorer`connections
      ensures var retried := faults[0].Some? && ShouldRetry(faults[0].value);
        var fault := if retried then faults[1] else faults[0];
        && datastorer.connections == old(datastorer.connections) + (if retried then 1 else 0)
        && (err.None? <==> fault.None? && Lookup(datastorer.entities, silo, key).Some?)
        && (err.None? ==> Lookup(datastorer.entities, silo, key) == Some(value))
        && (err.Some? ==> value == "" && err == if fault.Some? then fault else Some(NoSuchEntity))
    {
      var attempt := 1;
      value, err := datastorer.Get(silo, key, faults[0]);
      while attempt < MAX_ATTEMPT_COUNT && err.Some? && ShouldRetry(err.value)
        invariant 1 <= attempt <= MAX_ATTEMPT_COUNT
        invariant attempt > 1 ==> faults[0].Some? && ShouldRetry(faults[0].value)
        invariant var fault := faults[attempt - 1];
          err == if fault.Some? then fault
                 else if Lookup(datastorer.entities, silo, key).None? then Some(NoSuchEntity) else None
        invariant err.None? ==> Lookup(datastorer.entities, silo, key) == Some(value)
        invariant datastorer.connections == old(datastorer.connections) + attempt - 1
      {
        datastorer.Connect();
        value, err := datastorer.Get(silo, key, faults[attempt]);
        attempt := attempt + 1;
      }
      if err.Some? {
        value := "";
      }
    }

    method PutSiloString(silo: string, key: string, value: string, attempts: Attempts)
      returns (err: Option<DsError>)
      modifies datastorer
      ensures err == attempts.Error()
      ensures datastorer.entities == if attempts.TookEffect() then Stored(old(datastorer.entities), silo, key, value)
                                     else old(datastorer.entities)
      ensures datastorer.connections == old(datastorer.connections) + (if attempts.Retried() then 1 else 0)
    {
      StoredTwice(datastorer.entities, silo, key, value);
      err := datastorer.Put(silo, key, value, attempts.first);
      var attempt := 1;
      while attempt < MAX_ATTEMPT_COUNT && err.Some? && ShouldRetry(err.value)
        invariant 1 <= attempt <= MAX_ATTEMPT_COUNT
        invariant attempt == 1 ==> err == attempts.first.err
        invariant attempt == 2 ==> attempts.Retried() && err == attempts.second.err
        invariant datastorer.entities
          == if attempts.first.applied || (attempt == 2 && attempts.second.applied)
             then Stored(old(datastorer.entities), silo, key, value) else old(datastorer.entities)
        invariant datastorer.connections == old(datastorer.connections) + attempt - 1
      {
        datastorer.Connect();
        err := datastorer.Put(silo, key, value, attempts.second);
        attempt := attempt + 1;
      }
    }

    method DeleteSiloString(silo: string, key: string, attempts: Attempts) returns (err: Option<DsError>)
      modifies datastorer
      ensures err == attempts.Error()
      ensures datastorer.entities == if attempts.TookEffect() then Removed(old(datastorer.entities), silo, key)
                                     else old(datastorer.entities)
      ensures datastorer.connections == old(datastorer.connections) + (if attempts.Retried() then 1 else 0)
    {
      RemovedTwice(datastorer.entities, silo, key);
      var attempt := 1;
      err := datastorer.Delete(silo, key, attempts.first);
      while attempt < MAX_ATTEMPT_COUNT && err.Some? && ShouldRetry(err.value)
        invariant 1 <= attempt <= MAX_ATTEMPT_COUNT
        invariant attempt == 1 ==> err == attempts.first.err
        invariant attempt == 2 ==> attempts.Retried() && err == attempts.second.err
        invariant datastorer.entities
          == if attempts.first.applied || (attempt == 2 && attempts.second.applied)
             then Removed(old(datastorer.entities), silo, key) else old(datastorer.entities)
        invariant datastorer.connections == old(datastorer.connections) + attempt - 1
      {
        datastorer.Connect();
        err := datastorer.Delete(silo, key, attempts.second);
        attempt := attempt + 1;
      }
    }

    /** All entities by namespace, none empty. */
    method GlobalScan() returns (entries: Silos)
      ensures entries == datastorer.entities
    {
      entries := datastorer.entities;
    }
  }
}

/** The write-through copy in memory. */
module InMemoryDb {
  import opened Text
  import opened SiloMaps
  import opened DatastoreDb

  // ---- Memory and storage as values ----

  datatype Mirror = Mirror(memory: Silos, storage: Silos)

  datatype Write = Setting(silo: string, key: string, value: string) | Removal(silo: string, key: string)

  /** A write with what the datastore answers. */
  datatype Attempted = Attempted(write: Write, attempts: Attempts)

  function InStorage(storage: Silos, write: Write): Silos {
    match write
    case Setting(silo, key, value) => Stored(storage, silo, key, value)
    case Removal(silo, key) => Removed(storage, silo, key)
  }

  /** In memory a silo stays when its last entry goes. */
  function InMemory(memory: Silos, write: Write): Silos {
    match write
    case Setting(silo, key, value) => memory[silo := SiloOf(memory, silo)[key := value]]
    case Removal(silo, key) => if silo in memory then memory[silo := memory[silo] - {key}] else memory
  }

  function WriteThrough(m: Mirror, a: Attempted): Mirror {
    Mirror(if a.attempts.Error().None? then InMemory(m.memory, a.write) else m.memory,
           if a.attempts.TookEffect() then InStorage(m.storage, a.write) else m.storage)
  }

  function AfterWrites(m: Mirror, writes: seq<Attempted>): Mirror {
    if writes == [] then m
    else WriteThrough(AfterWrites(m, writes[..|writes| - 1]), writes[|writes| - 1])
  }

  predicate IsAbout(a: Attempted, silo: string, key: string) {
    a.write.silo == silo && a.write.key == key
  }

  /** The latest write at the key, if any, returned no error. */
  predicate LatestSucceeded(writes: seq<Attempted>, silo: string, key: string) {
    writes != [] ==>
      var last := writes[|writes| - 1];
      if IsAbout(last, silo, key) then last.attempts.Error().None?
      else LatestSucceeded(writes[..|writes| - 1], silo, key)
  }

  lemma LookupAfterWrite(m: Mirror, write: Write, silo: string, key: string)
    ensures write.silo == silo && write.key == key ==>
      Lookup(InMemory(m.memory, write), silo, key) == Lookup(InStorage(m.storage, write), silo, key)
    ensures !(write.silo == silo && write.key == key) ==>
      Lookup(InMemory(m.memory, write), silo, key) == Lookup(m.memory, silo, key)
      && Lookup(InStorage(m.storage, write), silo, key) == Lookup(m.storage, silo, key)
  {
    var entries := match write
      case Setting(s, k, v) => SiloOf(m.storage, s)[k := v]
      case Removal(s, k) => SiloOf(m.storage, s) - {k};
    assert write.silo == silo && key != write.key ==> (key in entries <==> key in SiloOf(m.storage, silo));
    if write.Setting? {
      assert write.key in entries;
    }
  }

  /**
   Over every run of writes, memory and storage agree at every key whose latest write did not return an error,
   even though a failed write may or may not have taken effect.
   */
  lemma {:induction false} AgreeUnlessFailed(m: Mirror, writes: seq<Attempted>, silo: string, key: string)
    requires Lookup(m.memory, silo, key) == Lookup(m.storage, silo, key)
    requires (forall a <- writes :: a.attempts.Sensible()) && LatestSucceeded(writes, silo, key)
    ensures Lookup(AfterWrites(m, writes).memory, silo, key) == Lookup(AfterWrites(m, writes).storage, silo, key)
  {
    if writes != [] {
      var before, last := AfterWrites(m, writes[..|writes| - 1]), writes[|writes| - 1];
      LookupAfterWrite(before, last.write, silo, key);
      if !IsAbout(last, silo, key) {
        AgreeUnlessFailed(m, writes[..|writes| - 1], silo, key);
      }
    }
  }

  /** What the scans of the memory return: the emptied silos do not show. */
  function Trimmed(memory: Silos): Silos {
    map silo | silo in memory && memory[silo] != map[] :: memory[silo]
  }

  lemma TrimmedLookup(memory: Silos, silo: string, key: string)
    ensures Lookup(Trimmed(memory), silo, key) == Lookup(memory, silo, key)
    ensures NoEmptySilo(Trimmed(memory))
  {
  }

  lemma {:induction false} StorageHasNoEmptySilo(m: Mirror, writes: seq<Attempted>)
    requires NoEmptySilo(m.storage)
    ensures NoEmptySilo(AfterWrites(m, writes).storage)
  {
    if writes != [] {
      StorageHasNoEmptySilo(m, writes[..|writes| - 1]);
    }
  }

  /** No failed write takes effect. */
  predicate Harmless(writes: seq<Attempted>) {
    forall a <- writes :: a.attempts.TookEffect() <==> a.attempts.Error().None?
  }

  lemma {:induction false} HarmlessLookup(m: Mirror, writes: seq<Attempted>, silo: string, key: string)
    requires Lookup(m.memory, silo, key) == Lookup(m.storage, silo, key) && Harmless(writes)
    ensures Lookup(AfterWrites(m, writes).memory, silo, key) == Lookup(AfterWrites(m, writes).storage, silo, key)
  {
    if writes != [] {
      HarmlessLookup(m, writes[..|writes| - 1], silo, key);
      LookupAfterWrite(AfterWrites(m, writes[..|writes| - 1]), writes[|writes| - 1].write, silo, key);
    }
  }

  /** If failed writes have no effect, lookups and scans of memory are those of storage, emptied silos or not. */
  lemma MirrorsExactly(storage: Silos, writes: seq<Attempted>)
    requires NoEmptySilo(storage) && Harmless(writes)
    ensures var m := AfterWrites(Mirror(storage, storage), writes);
      && (forall silo, key :: Lookup(m.memory, silo, key) == Lookup(m.storage, silo, key))
      && (forall silo :: SiloOf(m.memory, silo) == SiloOf(m.storage, silo))
      && Trimmed(m.memory) == m.storage
  {
    var m := AfterWrites(Mirror(storage, storage), writes);
    forall silo, key
      ensures Lookup(Trimmed(m.memory), silo, key) == Lookup(m.storage, silo, key)
      ensures Lookup(m.memory, silo, key) == Lookup(m.storage, silo, key)
    {
      HarmlessLookup(Mirror(storage, storage), writes, silo, key);
      TrimmedLookup(m.memory, silo, key);
    }
    TrimmedLookup(m.memory, "", "");
    StorageHasNoEmptySilo(Mirror(storage, storage), writes);
    SameLookups(Trimmed(m.memory), m.storage);
    forall silo
      ensures SiloOf(m.memory, silo) == SiloOf(m.storage, silo)
    {
      assert SiloOf(Trimmed(m.memory), silo) == SiloOf(m.memory, silo);
    }
  }

  // ---- The maps as objects ----

  /** A Go map is a reference: whoever holds it sees, and can make, its changes. */
  class GoMap {
    var entries: EntriesOf<string>

    constructor (entries: EntriesOf<string>)
      ensures this.entries == entries
    {
      this.entries := entries;
    }
  }

  class InMemoryDB {
    const persistentStorer: DatastoreDB
    var data: map<string, GoMap>

    /** Each silo has a map of its own. */
    ghost predicate Valid()
      reads this
    {
      forall s <- data, s' <- data :: s != s' ==> data[s] != data[s']
    }

    ghost function Contents(): Silos
      reads this, data.Values
    {
      map silo | silo in data :: data[silo].entries
    }

    ghost function State(): Mirror
      reads this, data.Values, persistentStorer, persistentStorer.datastorer
    {
      Mirror(Contents(), persistentStorer.datastorer.entities)
    }

    constructor (storer: DatastoreDB)
      ensures Valid() && persistentStorer == storer && forall silo <- data :: fresh(data[silo])
      ensures State() == Mirror(storer.datastorer.entities, storer.datastorer.entities)
    {
      persistentStorer := storer;
      data := map[];
      new;
      var scanned := storer.GlobalScan();
      var remaining := scanned.Keys;
      while remaining != {}
        invariant remaining <= scanned.Keys && data.Keys == scanned.Keys - remaining
        invariant Valid() && forall silo <- data :: fresh(data[silo]) && data[silo].entries == scanned[silo]
      {
        var silo :| silo in remaining;
        var copy := new GoMap(scanned[silo]);
        data := data[silo := copy];
        remaining := remaining - {silo};
      }
      assert Contents() == scanned;
    }

    method GetSiloString(silo: string, key: string) returns (value: Option<string>)
      ensures value == Lookup(Contents(), silo, key)
    {
      if silo !in data || key !in data[silo].entries {
        return None;
      }
      value := Some(data[silo].entries[key]);
    }

    /** What a put does in memory. */
    method Set(silo: string, key: string, value: string)
      requires Valid()
      modifies this`data, data.Values
      ensures Valid() && fresh(data.Values - old(data.Values))
      ensures Contents() == InMemory(old(Contents()), Setting(silo, key, value))
    {
      if silo !in data {
        var empty := new GoMap(map[]);
        data := data[silo := empty];
      }
      var entries := data[silo];
      entries.entries := entries.entries[key := value];
    }

    method PutSiloString(silo: string, key: string, value: string, attempts: Attempts)
      returns (err: Option<DsError>)
      requires Valid()
      modifies this`data, data.Values, persistentStorer.datastorer
      ensures Valid() && fresh(data.Values - old(data.Values))
      ensures err == attempts.Error()
      ensures State() == WriteThrough(old(State()), Attempted(Setting(silo, key, value), attempts))
    {
      err := persistentStorer.PutSiloString(silo, key, value, attempts);
      if err.None? {
        Set(silo, key, value);
      }
    }

    method DeleteSiloString(silo: string, key: string, attempts: Attempts) returns (err: Option<DsError>)
      requires Valid()
      modifies data.Values, persistentStorer.datastorer
      ensures err == attempts.Error()
      ensures State() == WriteThrough(old(State()), Attempted(Removal(silo, key), attempts))
    {
      err := persistentStorer.DeleteSiloString(silo, key, attempts);
      if err.Some? {
        return;
      }
      if silo in data {
        var entries := data[silo];
        entries.entries := entries.entries - {key};
      }
      assert Contents() == InMemory(old(Contents()), Removal(silo, key));
    }

    /** A copy: writing into it does not reach the store. */
    method ScanSilo(silo: string) returns (entries: GoMap)
      ensures fresh(entries) && entries.entries == SiloOf(Contents(), silo)
    {
      entries := new GoMap(map[]);
      if silo in data {
        var remaining := data[silo].entries;
        while remaining != map[]
          invariant remaining.Keys <= data[silo].entries.Keys
          invariant forall k <- remaining :: remaining[k] == data[silo].entries[k]
          invariant entries.entries == data[silo].entries - remaining.Keys
          decreases |remaining|
        {
          var k :| k in remaining;
          entries.entries := entries.entries[k := remaining[k]];
          remaining := remaining - {k};
        }
      }
    }

    /** A copy of each silo with an entry; emptied ones do not show, as a silo is added with its first entry. */
    method GlobalScan() returns (entries: map<string, GoMap>)
      ensures forall s <- entries :: fresh(entries[s])
      ensures forall s <- entries, s' <- entries :: s != s' ==> entries[s] != entries[s']
      ensures EntriesOfMaps(entries) == Trimmed(Contents())
    {
      entries := map[];
      ghost var contents := Contents();
      var silos := data.Keys;
      while silos != {}
        invariant silos <= data.Keys
        invariant forall s <- entries :: fresh(entries[s])
        invariant forall s <- entries, s' <- entries :: s != s' ==> entries[s] != entries[s']
        invariant EntriesOfMaps(entries) == Trimmed(contents - silos)
      {
        var s :| s in silos;
        TrimmedMore(contents, silos, s);
        ghost var before := entries;
        entries := AddCopies(entries, s, data[s].entries);
        AddsShows(before, s, data[s].entries, entries);
        silos := silos - {s};
      }
      assert contents - {} == contents;
    }
  }

  /** What the maps hold. */
  ghost function EntriesOfMaps(maps: map<string, GoMap>): Silos
    reads maps.Values
  {
    map silo | silo in maps :: maps[silo].entries
  }

  /** A silo is added only for some entries. */
  ghost predicate Adds(before: map<string, GoMap>, s: string, from: EntriesOf<string>, entries: map<string, GoMap>)
    reads entries.Values
  {
    if from == map[] then entries == before
    else s in entries && entries == before[s := entries[s]] && entries[s].entries == from
  }

  lemma AddsShows(before: map<string, GoMap>, s: string, from: EntriesOf<string>, entries: map<string, GoMap>)
    requires s !in before && Adds(before, s, from, entries)
    ensures EntriesOfMaps(entries)
      == if from == map[] then EntriesOfMaps(before) else EntriesOfMaps(before)[s := from]
  {
  }

  /** One turn of the inner loop of the global scan. */
  method AddEntry(before: map<string, GoMap>, s: string, k: string, v: string) returns (entries: map<string, GoMap>)
    modifies if s in before then {before[s]} else {}
    ensures s in entries && entries == before[s := entries[s]]
    ensures if s in before then entries == before else fresh(entries[s])
    ensures entries[s].entries == (if s in before then old(before[s].entries) else map[])[k := v]
  {
    entries := before;
    if s !in entries {
      var copy := new GoMap(map[]);
      entries := entries[s := copy];
    }
    entries[s].entries := entries[s].entries[k := v];
  }

  lemma CopiedMore(from: EntriesOf<string>, remaining: set<string>, k: string)
    requires remaining <= from.Keys && k in remaining
    ensures from - (remaining - {k}) == (from - remaining)[k := from[k]] != map[]
  {
    assert k in from - (remaining - {k});
  }

  /** The inner loop of the global scan. */
  method AddCopies(before: map<string, GoMap>, s: string, from: EntriesOf<string>) returns (entries: map<string, GoMap>)
    requires s !in before
    ensures s in entries ==> fresh(entries[s])
    ensures Adds(before, s, from, entries)
  {
    entries := before;
    var remaining := from.Keys;
    ghost var copied: EntriesOf<string> := map[];
    while remaining != {}
      invariant remaining <= from.Keys && copied == from - remaining
      invariant s in entries ==> fresh(entries[s])
      invariant Adds(before, s, copied, entries)
    {
      var k :| k in remaining;
      CopiedMore(from, remaining, k);
      entries := AddEntry(entries, s, k, from[k]);
      remaining := remaining - {k};
      copied := copied[k := from[k]];
    }
    assert from - {} == from;
  }

  lemma TrimmedMore(contents: Silos, silos: set<string>, s: string)
    requires s in silos && silos <= contents.Keys
    ensures s !in Trimmed(contents - silos)
    ensures Trimmed(contents - (silos - {s}))
      == if contents[s] == map[] then Trimmed(contents - silos) else Trimmed(contents - silos)[s := contents[s]]
  {
  }
}
