# Caching discipline of the property listings API

This project models the caching layer of a Django/DRF property-listings
service and proves what it promises. The shared cache is a map from keys to
entries (a value together with the timeout it was stored with); the property
table is a sequence of records whose prices are exact hundredths.

- **Read-through accessor** (`get_all_properties`): looks up
  `all_properties`; an absent key or a cached None is a miss, on which the whole
  table is read and cached for 3600 seconds.
- **Invalidation hooks** (post-save and post-delete): each deletes
  `all_properties` and nothing else. Signal dispatch becomes an explicit call
  after each store write (`Signals.SaveProperty`, `Signals.DeleteProperty`).
- **Stats aggregator** (the `stats` action): a second read-through over
  `property_stats`. On a miss it counts the records, sums their prices exactly
  (the source's Decimal context agrees while the total has at most 28
  significant digits),
  formats the sum with Python's `str` and caches the dict for 900 seconds. No
  hook touches this key, so stats stay stale across writes until they expire.

Modules: `Store` (records, the table object), `Decimals` (Python's `str` of
an int and of a two-place Decimal, with a parser proving the text exact),
`CacheStore` (cache object, lookup semantics, the read-through specification
`ReadThrough`), `Utils`, `Signals` and `Views` (one per source file), and
`Scenarios` (call sequences proved from the contracts alone). The cache and the
table are two objects passed to every operation. The reading operations are
declared `modifies cache` only, so the frame alone proves that they never
change the table.

## Model

| member | source | states |
|---|---|---|
| Utils.GetAllProperties | properties/utils.py:8-35 | returns and leaves in the cache exactly what the read-through over `all_properties` with the whole table and timeout 3600 gives; the table cannot change |
| CacheStore.ReadThrough | properties/utils.py:27-35 | a hit returns the cached value and leaves the cache as it was; a miss returns the computed value and stores it under the key with the given timeout; afterwards the key answers the returned value; every other key is unchanged |
| CacheStore.RepeatedReadIsHit | properties/utils.py:27-35 | a second read-through with nothing in between is a hit returning the first result and leaving the same cache |
| CacheStore.CachedNullIsMiss | properties/utils.py:30 | a cached None and an absent key give the same result and the same cache |
| Scenarios.ReadTwice | properties/utils.py:27-35 | two consecutive `get_all_properties` calls return the same non-None value, and the cache ends as the first call's read-through left it |
| Signals.Invalidate | properties/signals.py:25 | after invalidation `all_properties` is absent; every other key keeps its entry |
| Signals.InvalidateIdempotent | properties/signals.py:42 | invalidating twice equals invalidating once |
| Signals.InvalidateAbsentIsNoOp | properties/signals.py:25 | invalidating when `all_properties` is absent leaves the cache unchanged |
| Signals.InvalidatePropertyCacheOnSave | properties/signals.py:10-25 | the post-save hook removes only `all_properties`, whatever the instance and the `created` flag |
| Signals.InvalidatePropertyCacheOnDelete | properties/signals.py:28-42 | the post-delete hook removes only `all_properties` |
| Signals.SaveProperty | properties/signals.py:10-11 | a save (create or update) changes the table as the ORM does and then invalidates `all_properties` |
| Signals.DeleteProperty | properties/signals.py:28-29 | a delete removes the row and then invalidates `all_properties` |
| Signals.FirstReadAfterWriteIsMiss | properties/signals.py:25 | after any write the next read-through is a miss that returns and caches the post-write table for 3600 seconds |
| Scenarios.ReadSaveRead | properties/signals.py:10-25 | a read after a save returns the table as the save left it |
| Views.Stats | properties/views.py:35-54 | returns and leaves in the cache exactly what the read-through over `property_stats` with the computed stats and timeout 900 gives; the table cannot change |
| Views.PriceTotal | properties/views.py:45 | Python's `sum` of the prices equals the exact sum, and is the int 0 exactly when the table is empty |
| Views.ComputeStats | properties/views.py:44-50 | the dict has exactly the two fields. `total_properties` is the record count. `total_value` is `str` of Python's sum: it reads back as the exact price sum, is `"0"` for an empty table, otherwise has two fractional digits, and is signed exactly when the sum is negative |
| Views.TwoPropertiesExample | properties/views.py:44-50 | prices 100.00 and 250.50 give count 2 and total `"350.50"` |
| Views.KeysIndependent | properties/views.py:40-52 | the listing read-through never touches `property_stats`, the stats read-through never touches `all_properties`, invalidation never touches `property_stats` |
| Views.StatsStaleAcrossWrites | properties/views.py:41-43 | cached stats survive any write's invalidation and the next `stats` call returns them unchanged |
| Views.StatsRefreshedAfterExpiry | properties/views.py:52 | once the stats entry has expired, the next call returns stats computed from the current table |
| Scenarios.StatsExpireStats | properties/views.py:40-52 | once the stats entry has timed out, the next `stats` call recomputes from the current table and caches the result for 900 seconds |
| Scenarios.StatsDeleteStats | properties/views.py:41-43 | a `stats` call after a delete returns the same value as the call before it |
| Decimals.Plus | properties/views.py:45 | documents how Python's addition is modelled: an int or Decimal plus a two-place price is a Decimal holding the exact sum. That the whole sum is exact is proved by `Views.PriceTotal` against `Store.SumPrices` |
| Decimals.Str | properties/views.py:49 | the text is what `str` prints. A Decimal total has a point three from the end, two digits after it and no other point; an int has no point. It starts with `-` exactly when the value is negative, so zero has no sign. The integral digits after the sign have no leading zeros |
| Decimals.StrRoundTrip | properties/views.py:49 | the text `str` gives for the total reads back as its exact value, so formatting loses no precision |
| Decimals.DecStrRoundTrip | properties/views.py:49 | the text of a two-place Decimal reads back as its exact value |
| Decimals.IntStrRoundTrip | properties/views.py:49 | the text of an int reads back as its exact value |
| Decimals.ParseNatRoundTrip | properties/views.py:49 | the digits of a natural number read back as that number |
| Store.SumPricesSnoc | properties/views.py:45 | adding a record at the end adds its price to the exact sum |

## Left out

- `cache_page(60 * 5)` on `list` and `retrieve` (properties/views.py:21-33): Django's whole-response cache. Its keys are derived from the request inside the library. It is recorded only as a 300-second timeout. `Blob` values stand for such entries in the shared cache, and no operation of the model changes them.
- The clock: timeouts are stored with each entry but time is not modelled. `Cache.Expire` is the explicit step by which an entry lapses.
- The ORM, the Redis backend and the pickling of the lazy QuerySet: the table is a sequence read whole. Its order is the one described under `Store.Upsert` below. Saving and deleting rows are modelled only as far as the hooks need them.
- Signal registration and dispatch (properties/apps.py:8-16): each hook is called explicitly after its store write.
- Concurrency: races between invalidation and repopulation, and between the separate count and sum queries.
- Hit-ratio metrics and treating cache errors as misses: no core file implements them. The code has no error handling around the cache, so a failing cache is not modelled.
- Views.PriceTotal: the sum is exact and unbounded. Python adds Decimals in the default context, which rounds each sum to 28 significant digits and then prints it in exponent form. The sum and its fixed-point text match the source only while the total has at most 28 significant digits.
- Field validation, such as a non-negative price: the model file is not part of this model. Prices are taken to have two decimal places, and negative prices are formatted with a sign.
- Store.Upsert: the order of the collection is a modelling choice, not a promise of the source. An update keeps the row's position and a create goes last. The source's queries follow the model's ordering, which is not part of this model, and without one the database promises no order. The order that `Scenarios.ReadSaveRead` states holds only under this choice.
- Admin registration, URL routing, serializers and the DRF `Response` wrapper: UI and plumbing. `Views.Stats` returns the dict that the response carries.
