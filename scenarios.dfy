/** Sequences of calls against one cache and one table, proved from the
    contracts of the operations alone. */
module Scenarios {
  import opened Store
  import opened CacheStore
  import opened Utils
  import opened Signals
  import opened Views

  /** Two reads with nothing in between: the second is a hit that returns the
      same collection and leaves the cache as the first left it. */
  method ReadTwice(cache: Cache, store: PropertyStore) returns (first: Value, second: Value)
    modifies cache
    ensures second == first != Null
    ensures Lookup(cache.entries, AllPropertiesKey) == first
    ensures cache.entries
         == ReadThrough(old(cache.entries), AllPropertiesKey, Records(store.records), AllPropertiesTimeout).entries
  {
    first := GetAllProperties(cache, store);
    ghost var between := cache.entries;
    second := GetAllProperties(cache, store);
    assert cache.entries == between;
  }

  /** A save between two reads: the second read returns the table after the
      save, whatever the first returned. */
  method ReadSaveRead(cache: Cache, store: PropertyStore, p: Property) returns (before: Value, after: Value)
    modifies cache, store
    ensures store.records == Upsert(old(store.records), p)
    ensures after == Records(store.records)
    ensures Lookup(cache.entries, AllPropertiesKey) == after
    ensures cache.entries[AllPropertiesKey].timeout == AllPropertiesTimeout
  {
    before := GetAllProperties(cache, store);
    var created := SaveProperty(cache, store, p);
    after := GetAllProperties(cache, store);
  }

  /** A delete between two stats calls: the second returns the stale stats of
      the first, computed before the delete. */
  method StatsDeleteStats(cache: Cache, store: PropertyStore, instance: Property) returns (before: Value, after: Value)
    modifies cache, store
    ensures store.records == RemoveId(old(store.records), instance.id)
    ensures after == before
    ensures !IsHit(old(cache.entries), PropertyStatsKey) ==> after == ComputeStats(old(store.records))
  {
    before := Stats(cache, store);
    ghost var cached := cache.entries;
    DeleteProperty(cache, store, instance);
    StatsStaleAcrossWrites(cached, store.records);
    after := Stats(cache, store);
  }

  /** A stats call, the stats entry timing out, a stats call: the second
      call recomputes the stats from the table as it is then. */
  method StatsExpireStats(cache: Cache, store: PropertyStore) returns (before: Value, after: Value)
    modifies cache
    ensures after == ComputeStats(store.records)
    ensures Lookup(cache.entries, PropertyStatsKey) == after
    ensures cache.entries[PropertyStatsKey].timeout == StatsTimeout
  {
    before := Stats(cache, store);
    cache.Expire(PropertyStatsKey);
    after := Stats(cache, store);
  }
}
