/** The read-through accessor for the whole property collection. */
module Utils {
  import opened Store
  import opened CacheStore

  const AllPropertiesKey: Key := "all_properties"

  /** One hour, in seconds. */
  const AllPropertiesTimeout: nat := 3600

  /** `get_all_properties()`: the cached collection, or on a miss the whole
      table, which is then cached for an hour. Only the cache may change. */
  method GetAllProperties(cache: Cache, store: PropertyStore) returns (allProperties: Value)
    modifies cache
    ensures Outcome(allProperties, cache.entries)
         == ReadThrough(old(cache.entries), AllPropertiesKey, Records(store.records), AllPropertiesTimeout)
  {
    allProperties := cache.Get(AllPropertiesKey);
    if allProperties == Null {
      var all := store.All();
      allProperties := Records(all);
      cache.Set(AllPropertiesKey, allProperties, AllPropertiesTimeout);
    }
  }
}
