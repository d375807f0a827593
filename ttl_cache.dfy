/** The time-to-live cache both module-level caches of the service are built on (cachetools' TTLCache):
    every entry expires a fixed number of seconds after it was written, and the number of entries
    is bounded. The clock is an explicit `now`; which live entry a full cache evicts is left open. */
module Ttl {
  import opened Common

  datatype Slot<V> = Slot(value: V, expires: int)

  /** The entries a read at `now` still sees: an entry is expired once `now` reaches its expiry. */
  function LiveAt<K, V>(slots: map<K, Slot<V>>, now: int): (live: map<K, Slot<V>>)
    ensures live.Keys <= slots.Keys
    ensures forall k :: k in live ==> live[k] == slots[k] && now < slots[k].expires
    ensures forall k :: k in slots && now < slots[k].expires ==> k in live
  {
    map k | k in slots && now < slots[k].expires :: slots[k]
  }

  /** `cache.get(key)` at time `now`: the stored value while it is live, nothing once it expired. */
  function Find<K, V>(slots: map<K, Slot<V>>, key: K, now: int): Option<V> {
    if key in slots && now < slots[key].expires then Some(slots[key].value) else None
  }

  /** `cache[key] = value` at time `now`: expired entries are purged, then, when the key is new and the
      live entries already fill the cache, exactly one live entry is evicted; the key holds the value
      for `ttl` seconds. Nothing else changes. */
  ghost predicate IsInsertion<K, V>(before: map<K, Slot<V>>, after: map<K, Slot<V>>, key: K, value: V,
                                    now: int, ttl: nat, maxSize: nat)
  {
    var live := LiveAt(before, now);
    && key in after && after[key] == Slot(value, now + ttl)
    && (forall k :: k in after && k != key ==> k in live && after[k] == live[k])
    && (key in live || |live| < maxSize ==> after == live[key := Slot(value, now + ttl)])
    && (key !in live && |live| >= maxSize ==> |after| == |live|)
    && |after| <= maxSize
  }

  lemma SubsetSize<T>(a: set<T>, b: set<T>)
    requires a <= b
    ensures |a| <= |b|
    decreases |a|
  {
    if a != {} {
      var x :| x in a;
      SubsetSize(a - {x}, b - {x});
    }
  }

  /** Within its time to live a freshly written entry is read back; from then on it is gone. */
  lemma {:induction false} ReadBackWithinTtl<K, V>(before: map<K, Slot<V>>, after: map<K, Slot<V>>,
                                                   key: K, value: V, now: int, ttl: nat, maxSize: nat,
                                                   later: int)
    requires IsInsertion(before, after, key, value, now, ttl, maxSize)
    ensures now <= later < now + ttl ==> Find(after, key, later) == Some(value)
    ensures later >= now + ttl ==> Find(after, key, later) == None
  {
  }

  /** Writing one key leaves every other key as it was, except that a write of a new key into a full
      cache may evict one other live entry, and that expired entries are gone. */
  lemma OtherKeysKept<K, V>(before: map<K, Slot<V>>, after: map<K, Slot<V>>, key: K, value: V,
                            now: int, ttl: nat, maxSize: nat, other: K, later: int)
    requires IsInsertion(before, after, key, value, now, ttl, maxSize)
    requires other != key && now <= later
    ensures Find(after, other, later) == Find(before, other, later)
         || (Find(after, other, later).None? && key !in LiveAt(before, now) && |LiveAt(before, now)| >= maxSize)
  {
  }

  class TtlCache<K(==), V> {
    const maxSize: nat
    const ttl: nat
    var slots: map<K, Slot<V>>

    ghost predicate Valid()
      reads this
    {
      0 < maxSize && 0 < ttl && |slots| <= maxSize
    }

    constructor (maxSize: nat, ttl: nat)
      requires 0 < maxSize && 0 < ttl
      ensures Valid() && slots == map[]
      ensures this.maxSize == maxSize && this.ttl == ttl
    {
      this.maxSize := maxSize;
      this.ttl := ttl;
      slots := map[];
    }

    /** `len(cache)` at time `now`: the length purges the expired entries first, so it counts the
        live ones, never more than the capacity. */
    function Size(now: int): (n: nat)
      reads this
      requires Valid()
      ensures n == |set k | k in slots && now < slots[k].expires|
      ensures n <= maxSize
    {
      var live := LiveAt(slots, now);
      assert live.Keys == set k | k in slots && now < slots[k].expires;
      SubsetSize(live.Keys, slots.Keys);
      |live|
    }

    method Insert(key: K, value: V, now: int)
      requires Valid()
      modifies this
      ensures Valid()
      ensures IsInsertion(old(slots), slots, key, value, now, ttl, maxSize)
    {
      var live := LiveAt(slots, now);
      SubsetSize(live.Keys, slots.Keys);
      if key !in live && |live| >= maxSize {
        var victim :| victim in live;
        var rest := live - {victim};
        assert rest.Keys == live.Keys - {victim};
        slots := rest[key := Slot(value, now + ttl)];
        assert slots.Keys == rest.Keys + {key};
      } else {
        slots := live[key := Slot(value, now + ttl)];
      }
    }

    /** `cache.clear()`. */
    method Clear()
      requires Valid()
      modifies this
      ensures Valid() && slots == map[]
    {
      slots := map[];
    }
  }
}
