/** The invalidation hooks that run after every write to the property table,
    and the writes themselves with their hook called explicitly. */
module Signals {
  import opened Store
  import opened CacheStore
  import opened Utils

  /** The cache after `cache.delete('all_properties')`. */
  function Invalidate(entries: Entries): (r: Entries)
    ensures AllPropertiesKey !in r && !IsHit(r, AllPropertiesKey)
    ensures r.Keys == entries.Keys - {AllPropertiesKey}
    ensures UnchangedExcept(entries, r, AllPropertiesKey)
  {
    entries - {AllPropertiesKey}
  }

  /** Invalidating twice is invalidating once. */
  lemma InvalidateIdempotent(entries: Entries)
    ensures Invalidate(Invalidate(entries)) == Invalidate(entries)
  {
  }

  /** Invalidating when nothing is cached under the key changes nothing. */
  lemma InvalidateAbsentIsNoOp(entries: Entries)
    requires AllPropertiesKey !in entries
    ensures Invalidate(entries) == entries
  {
  }

  /** The post-save hook. Neither the instance nor `created` matters: a
      create and an update have the same effect on the cache. */
  method InvalidatePropertyCacheOnSave(cache: Cache, instance: Property, created: bool)
    modifies cache
    ensures cache.entries == Invalidate(old(cache.entries))
  {
    cache.Delete(AllPropertiesKey);
  }

  /** The post-delete hook. */
  method InvalidatePropertyCacheOnDelete(cache: Cache, instance: Property)
    modifies cache
    ensures cache.entries == Invalidate(old(cache.entries))
  {
    cache.Delete(AllPropertiesKey);
  }

  /** Saving (creating or updating) a property, then its post-save hook. */
  method SaveProperty(cache: Cache, store: PropertyStore, p: Property) returns (created: bool)
    modifies cache, store
    ensures created == !HasId(old(store.records), p.id)
    ensures store.records == Upsert(old(store.records), p)
    ensures cache.entries == Invalidate(old(cache.entries))
  {
    created := store.Save(p);
    InvalidatePropertyCacheOnSave(cache, p, created);
  }

  /** Deleting a property, then its post-delete hook. */
  method DeleteProperty(cache: Cache, store: PropertyStore, instance: Property)
    modifies cache, store
    ensures store.records == RemoveId(old(store.records), instance.id)
    ensures cache.entries == Invalidate(old(cache.entries))
  {
    store.Delete(instance);
    InvalidatePropertyCacheOnDelete(cache, instance);
  }

  /** Whatever was cached before a write, the first read-through after it is a
      miss that returns the table as the write left it and caches that. */
  lemma FirstReadAfterWriteIsMiss(entries: Entries, records: seq<Property>)
    ensures var o := ReadThrough(Invalidate(entries), AllPropertiesKey, Records(records), AllPropertiesTimeout);
            !IsHit(Invalidate(entries), AllPropertiesKey) &&
            o.result == Records(records) &&
            o.entries == entries[AllPropertiesKey := Entry(Records(records), AllPropertiesTimeout)]
  {
  }
}
