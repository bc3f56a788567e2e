/** Maps of maps: the entries of a store by silo. */
module SiloMaps {
  import opened Text

  type EntriesOf<K> = map<K, K>
  type SilosOf<K> = map<K, map<K, K>>

  function Lookup<K>(silos: SilosOf<K>, silo: K, key: K): Option<K> {
    if silo in silos && key in silos[silo] then Some(silos[silo][key]) else None
  }

  /** A missing silo reads as empty. */
  function SiloOf<K>(silos: SilosOf<K>, silo: K): EntriesOf<K> {
    if silo in silos then silos[silo] else map[]
  }

  predicate NoEmptySilo<K>(silos: SilosOf<K>) {
    forall silo <- silos :: silos[silo] != map[]
  }

  function Filed<K>(silos: SilosOf<K>, silo: K, entries: EntriesOf<K>): SilosOf<K> {
    if entries == map[] then silos - {silo} else silos[silo := entries]
  }

  function Stored<K>(silos: SilosOf<K>, silo: K, key: K, value: K): SilosOf<K> {
    Filed(silos, silo, SiloOf(silos, silo)[key := value])
  }

  function Removed<K>(silos: SilosOf<K>, silo: K, key: K): SilosOf<K> {
    Filed(silos, silo, SiloOf(silos, silo) - {key})
  }

  lemma SameSilo<K(!new)>(v: SilosOf<K>, v': SilosOf<K>, silo: K)
    requires NoEmptySilo(v) && NoEmptySilo(v') && forall key :: Lookup(v, silo, key) == Lookup(v', silo, key)
    ensures silo in v <==> silo in v'
    ensures silo in v && silo in v' ==> v[silo] == v'[silo]
  {
    if silo in v {
      var key :| key in v[silo];
      assert Lookup(v, silo, key).Some?;
    }
    if silo in v' {
      var key :| key in v'[silo];
      assert Lookup(v', silo, key).Some?;
    }
    if silo in v && silo in v' {
      forall key
        ensures key in v[silo] <==> key in v'[silo]
        ensures key in v[silo] ==> v[silo][key] == v'[silo][key]
      {
        assert Lookup(v, silo, key) == Lookup(v', silo, key);
      }
    }
  }

  /** Without empty silos, the lookups determine the map. */
  lemma SameLookups<K(!new)>(v: SilosOf<K>, v': SilosOf<K>)
    requires NoEmptySilo(v) && NoEmptySilo(v') && forall silo, key :: Lookup(v, silo, key) == Lookup(v', silo, key)
    ensures v == v'
  {
    forall silo
      ensures silo in v <==> silo in v'
      ensures silo in v && silo in v' ==> v[silo] == v'[silo]
    {
      SameSilo(v, v', silo);
    }
  }
}
