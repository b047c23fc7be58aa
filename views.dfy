/** The `stats` action of the property API: a second read-through, over its
    own key, of the count and exact total price of the table. */
module Views {
  import opened Store
  import opened Decimals
  import opened CacheStore
  import opened Utils
  import opened Signals

  const PropertyStatsKey: Key := "property_stats"

  /** Fifteen minutes, in seconds. */
  const StatsTimeout: nat := 60 * 15

  /** The value of `sum(p.price for p in records)`: Python's sum starts from
      the int 0 and adds each Decimal price in turn. */
  function PriceTotal(records: seq<Property>): (t: Number)
    ensures Hundredths(t) == SumPrices(records)
    ensures t.Int? <==> records == []
  {
    if records == [] then Int(0)
    else
      var n := |records| - 1;
      assert records == records[..n] + [records[n]];
      SumPricesSnoc(records[..n], records[n]);
      Plus(PriceTotal(records[..n]), records[n].price)
  }

  /** The stats dict computed on a miss: exactly the two fields, the number of
      records and the text of their exact total price. */
  function ComputeStats(records: seq<Property>): (s: Value)
    ensures s.StatsDict?
    ensures s.totalProperties == |records|
    ensures ParseDecimal(s.totalValue) == Some(SumPrices(records))
    ensures records == [] ==> s.totalValue == "0"
    ensures records != [] ==> TwoPlaceText(s.totalValue)
    ensures s.totalValue[0] == '-' <==> SumPrices(records) < 0
    ensures s.totalValue == Str(PriceTotal(records))
  {
    var total := PriceTotal(records);
    StrRoundTrip(total);
    StatsDict(|records|, Str(total))
  }

  /** The `stats` action: the cached stats, or on a miss freshly computed
      stats, which are then cached for fifteen minutes. Only the cache may
      change. */
  method Stats(cache: Cache, store: PropertyStore) returns (stats: Value)
    modifies cache
    ensures Outcome(stats, cache.entries)
         == ReadThrough(old(cache.entries), PropertyStatsKey, ComputeStats(store.records), StatsTimeout)
  {
    stats := cache.Get(PropertyStatsKey);
    if stats == Null {
      var totalProperties := store.Count();
      var all := store.All();
      var totalValue := PriceTotal(all);
      stats := StatsDict(totalProperties, Str(totalValue));
      cache.Set(PropertyStatsKey, stats, StatsTimeout);
    }
  }

  /** The two read-throughs use distinct keys, so neither disturbs the
      other's entry, and invalidation leaves the stats entry alone. */
  lemma KeysIndependent(entries: Entries, records: seq<Property>)
    ensures SameAt(entries, ReadThrough(entries, AllPropertiesKey, Records(records), AllPropertiesTimeout).entries, PropertyStatsKey)
    ensures SameAt(entries, ReadThrough(entries, PropertyStatsKey, ComputeStats(records), StatsTimeout).entries, AllPropertiesKey)
    ensures SameAt(entries, Invalidate(entries), PropertyStatsKey)
  {
  }

  /** Stats stay stale across writes: cached stats survive the invalidation
      that follows any save or delete, so the next `stats` call returns them
      whatever the table now holds. */
  lemma StatsStaleAcrossWrites(entries: Entries, records: seq<Property>)
    requires IsHit(entries, PropertyStatsKey)
    ensures var o := ReadThrough(Invalidate(entries), PropertyStatsKey, ComputeStats(records), StatsTimeout);
            o.result == Lookup(entries, PropertyStatsKey) && o.entries == Invalidate(entries)
  {
  }

  /** Once the stats entry has expired, the next `stats` call recomputes them
      from the table as it is then. */
  lemma StatsRefreshedAfterExpiry(entries: Entries, records: seq<Property>)
    ensures ReadThrough(entries - {PropertyStatsKey}, PropertyStatsKey, ComputeStats(records), StatsTimeout).result
         == ComputeStats(records)
  {
  }

  /** Two properties priced 100.00 and 250.50 give a count of 2 and the
      total "350.50", to the cent. */
  lemma TwoPropertiesExample(a: Property, b: Property)
    requires a.price == 10000 && b.price == 25050
    ensures ComputeStats([a, b]) == StatsDict(2, "350.50")
  {
    assert [a, b][..1] == [a];
    assert PriceTotal([a, b]) == Dec(35050);
    assert NatToString(350) == "350";
  }
}
