/** The shared cache that every component reads and writes: a map from keys to
    entries, each a value with the timeout it was stored with. */
module CacheStore {
  import opened Store

  type Key = string

  /** What an entry can hold. `Null` is Python's None, which a lookup also
      returns for a key that is not there. */
  datatype Value =
    | Null
    | Records(items: seq<Property>)
    | StatsDict(totalProperties: nat, totalValue: string)
    | Blob(bytes: seq<int>)  // any other payload, such as a whole cached response

  datatype Entry = Entry(value: Value, timeout: nat)

  type Entries = map<Key, Entry>

  /** What `cache.get(key)` answers: the stored value, or None when absent. */
  function Lookup(entries: Entries, key: Key): (v: Value)
    ensures key !in entries ==> v == Null
    ensures key in entries ==> v == entries[key].value
  {
    if key in entries then entries[key].value else Null
  }

  /** A lookup that the source treats as a hit: present and not None. */
  predicate IsHit(entries: Entries, key: Key)
  {
    Lookup(entries, key) != Null
  }

  predicate SameAt(a: Entries, b: Entries, k: Key)
  {
    (k in a <==> k in b) && (k in a ==> a[k] == b[k])
  }

  /** Every key other than `key` has the same entry, or is absent, in both. */
  ghost predicate UnchangedExcept(a: Entries, b: Entries, key: Key)
  {
    forall k :: k != key ==> SameAt(a, b, k)
  }

  /** What a read-through returns, with the cache contents it leaves. */
  datatype Outcome = Outcome(result: Value, entries: Entries)

  /** The read-through discipline: look `key` up; an absent key or a cached
      None is a miss, on which `computed` is stored under `key` with `timeout`
      and returned; a hit returns the cached value and writes nothing. */
  function ReadThrough(entries: Entries, key: Key, computed: Value, timeout: nat): (o: Outcome)
    ensures IsHit(entries, key) ==> o.result == Lookup(entries, key) && o.entries == entries
    ensures !IsHit(entries, key) ==>
              o.result == computed && key in o.entries && o.entries[key] == Entry(computed, timeout)
    ensures Lookup(o.entries, key) == o.result
    ensures UnchangedExcept(entries, o.entries, key)
  {
    if IsHit(entries, key) then Outcome(Lookup(entries, key), entries)
    else Outcome(computed, entries[key := Entry(computed, timeout)])
  }

  /** A second read-through with nothing in between is a hit: it returns what
      the first returned and leaves the cache as the first left it. */
  lemma RepeatedReadIsHit(entries: Entries, key: Key, computed: Value, timeout: nat, computed': Value, timeout': nat)
    requires computed != Null
    ensures var first := ReadThrough(entries, key, computed, timeout);
            IsHit(first.entries, key) &&
            ReadThrough(first.entries, key, computed', timeout') == first
  {
  }

  /** A cached None cannot be told from an absent key: both are misses that
      store `computed`, and they leave the same cache behind. */
  lemma CachedNullIsMiss(entries: Entries, key: Key, t: nat, computed: Value, timeout: nat)
    ensures ReadThrough(entries[key := Entry(Null, t)], key, computed, timeout)
         == ReadThrough(entries - {key}, key, computed, timeout)
  {
  }

  /** The cache client. */
  class Cache {
    var entries: Entries

    constructor ()
      ensures entries == map[]
    {
      entries := map[];
    }

    /** `cache.get(key)`. */
    method Get(key: Key) returns (v: Value)
      ensures v == Lookup(entries, key)
    {
      v := Lookup(entries, key);
    }

    /** `cache.set(key, value, timeout)`. */
    method Set(key: Key, value: Value, timeout: nat)
      modifies this
      ensures entries == old(entries)[key := Entry(value, timeout)]
    {
      entries := entries[key := Entry(value, timeout)];
    }

    /** `cache.delete(key)`; deleting an absent key changes nothing. */
    method Delete(key: Key)
      modifies this
      ensures entries == old(entries) - {key}
    {
      entries := entries - {key};
    }

    /** The cache dropping `key` once its timeout has elapsed. The program
        never calls this; it stands for the passing of time. */
    method Expire(key: Key)
      requires key in entries
      modifies this
      ensures entries == old(entries) - {key}
    {
      entries := entries - {key};
    }
  }
}
