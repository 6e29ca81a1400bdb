/**
 * The in-memory layer of the advanced cache: entries keyed by string, an
 * access order for least-recently-used eviction and a running byte count,
 * with the layered cache manager on top. Times are numbers supplied by the
 * caller; an entry with an expiry is expired once the time is past it.
 * Values are raw bytes; their (de)serialisation is not modelled.
 */
module Cache {
  import opened Wrappers

  datatype CachePriority = Low | Normal | High | Critical

  datatype CacheEntry = CacheEntry(
    value: seq<bv8>, createdAt: nat, lastAccessed: nat, accessCount: nat,
    expiresAt: Option<nat>, priority: CachePriority, tags: seq<string>, size: nat)

  datatype EvictionPolicy = LRU | LFU | FIFO | TTL | Custom(name: string)

  datatype CacheStrategy = CacheStrategy(maxMemoryBytes: nat, defaultTtl: nat, evictionPolicy: EvictionPolicy)

  datatype CacheStats = CacheStats(hits: nat, misses: nat, writes: nat, deletes: nat, evictions: nat,
                                   memoryUsageBytes: nat, entryCount: nat)

  const EmptyStats := CacheStats(0, 0, 0, 0, 0, 0, 0)

  predicate Expired(e: CacheEntry, now: nat) {
    e.expiresAt.Some? && now > e.expiresAt.value
  }

  /** The size an entry under `k` occupies, 0 when there is none. */
  function SizeOf(data: map<string, CacheEntry>, k: string): nat {
    if k in data then data[k].size else 0
  }

  /** The bytes of the entries named by `keys`. */
  function SumSizes(keys: seq<string>, data: map<string, CacheEntry>): nat
    decreases |keys|
  {
    if keys == [] then 0 else SizeOf(data, keys[0]) + SumSizes(keys[1..], data)
  }

  predicate NoDuplicates(s: seq<string>) {
    forall i, j :: 0 <= i < j < |s| ==> s[i] != s[j]
  }

  /** `position` then `remove`: the first occurrence of `k` goes. */
  function RemoveFirst(s: seq<string>, k: string): (r: seq<string>)
    ensures forall x :: x in r ==> x in s
    ensures |r| <= |s|
    decreases |s|
  {
    if s == [] then []
    else if s[0] == k then s[1..]
    else [s[0]] + RemoveFirst(s[1..], k)
  }

  /** Without duplicates, removing the first occurrence removes the key altogether. */
  lemma {:induction false} RemoveFirstUnique(s: seq<string>, k: string)
    requires NoDuplicates(s)
    ensures NoDuplicates(RemoveFirst(s, k))
    ensures forall x :: x in RemoveFirst(s, k) <==> x in s && x != k
    decreases |s|
  {
    if s != [] && s[0] != k {
      var rest := RemoveFirst(s[1..], k);
      RemoveFirstUnique(s[1..], k);
      assert s[0] !in s[1..];
      assert ([s[0]] + rest)[1..] == rest;
    }
  }

  /** The access order with the given keys taken out, the rest in their order. */
  function Without(order: seq<string>, gone: set<string>): (r: seq<string>)
    ensures forall x :: x in r <==> x in order && x !in gone
    decreases |order|
  {
    if order == [] then []
    else if order[0] in gone then Without(order[1..], gone)
    else [order[0]] + Without(order[1..], gone)
  }

  /** Taking out nothing leaves the order as it was. */
  lemma {:induction false} WithoutNothing(order: seq<string>)
    ensures Without(order, {}) == order
    decreases |order|
  {
    if order != [] {
      WithoutNothing(order[1..]);
      assert order == [order[0]] + order[1..];
    }
  }

  /** Taking out a key absent from the order changes nothing. */
  lemma {:induction false} WithoutAbsent(order: seq<string>, gone: set<string>, k: string)
    requires k !in order
    ensures Without(order, gone + {k}) == Without(order, gone)
    decreases |order|
  {
    if order != [] {
      WithoutAbsent(order[1..], gone, k);
    }
  }

  /** Removing one more key from an order without duplicates is taking it out too. */
  lemma {:induction false} RemoveFirstWithout(order: seq<string>, gone: set<string>, k: string)
    requires NoDuplicates(order)
    ensures RemoveFirst(Without(order, gone), k) == Without(order, gone + {k})
    decreases |order|
  {
    if order != [] {
      assert NoDuplicates(order[1..]) by {
        forall i, j | 0 <= i < j < |order[1..]| ensures order[1..][i] != order[1..][j] {
          assert order[1..][i] == order[i + 1] && order[1..][j] == order[j + 1];
        }
      }
      if order[0] in gone {
        RemoveFirstWithout(order[1..], gone, k);
      } else if order[0] == k {
        assert k !in order[1..] by {
          forall j | 0 <= j < |order[1..]| ensures order[1..][j] != k {
            assert order[1..][j] == order[j + 1];
          }
        }
        WithoutAbsent(order[1..], gone, k);
      } else {
        RemoveFirstWithout(order[1..], gone, k);
        assert ([order[0]] + Without(order[1..], gone))[1..] == Without(order[1..], gone);
      }
    }
  }

  /** A key moved to (or added at) the most recent end of the access order. */
  function Touch(order: seq<string>, k: string): seq<string> {
    RemoveFirst(order, k) + [k]
  }

  /** Touching keeps the order free of duplicates and adds only the key. */
  lemma TouchUnique(order: seq<string>, k: string)
    requires NoDuplicates(order)
    ensures NoDuplicates(Touch(order, k))
    ensures forall x :: x in Touch(order, k) <==> x in order || x == k
    ensures Touch(order, k)[|Touch(order, k)| - 1] == k
  {
    var rest := RemoveFirst(order, k);
    RemoveFirstUnique(order, k);
    var r := rest + [k];
    forall i, j | 0 <= i < j < |r|
      ensures r[i] != r[j]
    {
      if j == |r| - 1 {
        assert r[i] in rest;
      }
    }
  }

  lemma {:induction false} SumRemoveFirst(s: seq<string>, data: map<string, CacheEntry>, k: string)
    ensures SumSizes(RemoveFirst(s, k), data) + (if k in s then SizeOf(data, k) else 0) == SumSizes(s, data)
    decreases |s|
  {
    if s != [] && s[0] != k {
      SumRemoveFirst(s[1..], data, k);
      assert ([s[0]] + RemoveFirst(s[1..], k))[1..] == RemoveFirst(s[1..], k);
    }
  }

  lemma {:induction false} SumAppend(s: seq<string>, data: map<string, CacheEntry>, k: string)
    ensures SumSizes(s + [k], data) == SumSizes(s, data) + SizeOf(data, k)
    decreases |s|
  {
    if s == [] {
      assert s + [k] == [k];
    } else {
      SumAppend(s[1..], data, k);
      assert (s + [k])[1..] == s[1..] + [k];
    }
  }

  /** Entries under keys outside the list do not count. */
  lemma {:induction false} SumFrame(s: seq<string>, data: map<string, CacheEntry>, data': map<string, CacheEntry>)
    requires forall x :: x in s ==> SizeOf(data, x) == SizeOf(data', x)
    ensures SumSizes(s, data) == SumSizes(s, data')
    decreases |s|
  {
    if s != [] {
      SumFrame(s[1..], data, data');
    }
  }

  /**
   * The keys LRU eviction picks: from the least recently used on, the keys
   * that still have entries, until the freed bytes reach the need.
   */
  function LruVictims(order: seq<string>, data: map<string, CacheEntry>, needed: nat, freed: nat): (r: seq<string>)
    ensures forall x :: x in r ==> x in order && x in data
    decreases |order|
  {
    if order == [] then []
    else if order[0] !in data then LruVictims(order[1..], data, needed, freed)
    else if freed + data[order[0]].size >= needed then [order[0]]
    else [order[0]] + LruVictims(order[1..], data, needed, freed + data[order[0]].size)
  }

  /**
   * Eviction frees what is needed, or else takes every key of the order
   * that has an entry.
   */
  lemma {:induction false} LruVictimsEnough(order: seq<string>, data: map<string, CacheEntry>, needed: nat, freed: nat)
    ensures var r := LruVictims(order, data, needed, freed);
      freed + SumSizes(r, data) >= needed || forall x :: x in order && x in data ==> x in r
    decreases |order|
  {
    if order != [] {
      if order[0] !in data {
        LruVictimsEnough(order[1..], data, needed, freed);
      } else if freed + data[order[0]].size < needed {
        var rest := LruVictims(order[1..], data, needed, freed + data[order[0]].size);
        LruVictimsEnough(order[1..], data, needed, freed + data[order[0]].size);
        assert ([order[0]] + rest)[1..] == rest;
      }
    }
  }

  /**
   * The victims are the oldest keys: none of them was used after a key
   * with an entry that eviction kept.
   */
  lemma {:induction false} LruVictimsArePrefix(order: seq<string>, data: map<string, CacheEntry>, needed: nat, freed: nat)
    returns (j: nat)
    ensures j <= |order|
    ensures forall x :: x in LruVictims(order, data, needed, freed) <==> x in order[..j] && x in data
    decreases |order|
  {
    if order == [] {
      j := 0;
    } else if order[0] in data && freed + data[order[0]].size >= needed {
      j := 1;
      assert order[..1] == [order[0]];
    } else {
      var f := if order[0] in data then freed + data[order[0]].size else freed;
      var k := LruVictimsArePrefix(order[1..], data, needed, f);
      j := k + 1;
      assert order[..j] == [order[0]] + order[1..][..k];
    }
  }

  /**
   * The keys `evict_entries` drops to make room for `needed` bytes: the
   * LRU victims, every expired key under TTL, and none under the other
   * policies.
   */
  function Victims(order: seq<string>, data: map<string, CacheEntry>, policy: EvictionPolicy, needed: nat, now: nat): set<string> {
    if policy.LRU? then set x | x in LruVictims(order, data, needed, 0)
    else if policy.TTL? then set k | k in data && Expired(data[k], now)
    else {}
  }

  /** The abstract state of a memory cache, as the source's get reads and writes it. */
  datatype MemoryState = MemoryState(data: map<string, CacheEntry>, order: seq<string>, usage: nat)

  /** The byte count equals the entries' sizes and the access order lists each key once. */
  predicate Consistent(s: MemoryState) {
    NoDuplicates(s.order) && (forall k :: k in s.data ==> k in s.order) && (forall k :: k in s.order ==> k in s.data)
    && s.usage == SumSizes(s.order, s.data)
  }

  /**
   * `get` as written on an expired entry: the entry leaves the map but
   * neither the byte count nor the access order is updated.
   */
  function ExpiredGetAsWritten(s: MemoryState, key: string): MemoryState {
    s.(data := s.data - {key})
  }

  /**
   * A one-entry cache whose entry has expired: as written, reading it
   * leaves 10 bytes counted for an empty cache.
   */
  lemma ExpiredGetLeaksUsage()
    ensures var e := CacheEntry([], 0, 0, 0, Some(5), Normal, [], 10);
            var s := MemoryState(map["k" := e], ["k"], 10);
            Consistent(s) && Expired(e, 6)
            && var s' := ExpiredGetAsWritten(s, "k");
               s'.data == map[] && s'.usage == 10 && !Consistent(s')
  {
    var e := CacheEntry([], 0, 0, 0, Some(5), Normal, [], 10);
    var s := MemoryState(map["k" := e], ["k"], 10);
    assert SumSizes(["k"], s.data) == 10;
    var s' := ExpiredGetAsWritten(s, "k");
    assert "k" in s'.order && "k" !in s'.data;
  }

  /** Dropping an entry as `delete` does keeps the state consistent. */
  function DropEntry(s: MemoryState, key: string): MemoryState
    requires Consistent(s)
  {
    if key in s.data then
      SumRemoveFirst(s.order, s.data, key);
      MemoryState(s.data - {key}, RemoveFirst(s.order, key), s.usage - s.data[key].size)
    else s
  }

  lemma DropEntryConsistent(s: MemoryState, key: string)
    requires Consistent(s)
    ensures Consistent(DropEntry(s, key))
    ensures DropEntry(s, key).data == s.data - {key}
  {
    if key in s.data {
      var rest := RemoveFirst(s.order, key);
      SumRemoveFirst(s.order, s.data, key);
      RemoveFirstUnique(s.order, key);
      SumFrame(rest, s.data, s.data - {key});
    }
  }

  /** Storing an entry as `set` does keeps the state consistent. */
  lemma PutConsistent(s: MemoryState, key: string, entry: CacheEntry)
    requires Consistent(s)
    ensures s.usage >= SizeOf(s.data, key)
    ensures Consistent(MemoryState(s.data[key := entry], Touch(s.order, key), s.usage - SizeOf(s.data, key) + entry.size))
  {
    var rest := RemoveFirst(s.order, key);
    var data' := s.data[key := entry];
    var order' := Touch(s.order, key);
    SumRemoveFirst(s.order, s.data, key);
    assert SumSizes(rest, s.data) + SizeOf(s.data, key) == s.usage;
    RemoveFirstUnique(s.order, key);
    TouchUnique(s.order, key);
    SumFrame(rest, s.data, data');
    SumAppend(rest, data', key);
    assert SumSizes(order', data') == s.usage - SizeOf(s.data, key) + entry.size;
    assert forall k :: k in data' ==> k in order';
    assert forall k :: k in order' ==> k in data';
  }

  /**
   * The state `set` leaves: when the new bytes would pass the limit the
   * policy's victims go first, then the fresh entry replaces any old one
   * as the most recently used, and the byte count is that of the entries
   * that remain.
   */
  function SetState(s: MemoryState, strategy: CacheStrategy, key: string, value: seq<bv8>, ttl: Option<nat>, now: nat): (r: MemoryState)
    ensures key in r.data && r.data[key].value == value && r.data[key].size == |value|
    ensures |r.order| > 0 && r.order[|r.order| - 1] == key
    ensures forall k :: k in r.data && k != key ==> k in s.data && r.data[k] == s.data[k]
  {
    var gone := if s.usage + |value| > strategy.maxMemoryBytes
      then Victims(s.order, s.data, strategy.evictionPolicy, |value|, now) else {};
    var data := (s.data - gone)[key := CacheEntry(value, now, now, 0, if ttl.Some? then Some(now + ttl.value) else None, Normal, [], |value|)];
    var order := Touch(Without(s.order, gone), key);
    MemoryState(data, order, SumSizes(order, data))
  }

  class MemoryCache {
    var data: map<string, CacheEntry>
    var accessOrder: seq<string>
    var memoryUsage: nat
    const config: CacheStrategy

    function State(): MemoryState
      reads this
    {
      MemoryState(data, accessOrder, memoryUsage)
    }

    predicate Valid()
      reads this
    {
      Consistent(State())
    }

    constructor(config: CacheStrategy)
      ensures Valid() && data == map[] && accessOrder == [] && memoryUsage == 0 && this.config == config
    {
      data := map[];
      accessOrder := [];
      memoryUsage := 0;
      this.config := config;
    }

    /**
     * `get`: a missing key is a miss; an expired entry is dropped (with
     * its bytes and its place in the access order) and is a miss; a hit
     * counts the access and makes the key the most recently used.
     */
    method Get(key: string, now: nat) returns (r: Option<seq<bv8>>)
      requires Valid()
      modifies this
      ensures Valid()
      ensures key !in old(data) ==> r.None? && State() == old(State())
      ensures key in old(data) && Expired(old(data)[key], now) ==>
        r.None? && State() == DropEntry(old(State()), key)
      ensures key in old(data) && !Expired(old(data)[key], now) ==>
        r == Some(old(data)[key].value)
        && data == old(data)[key := old(data)[key].(lastAccessed := now, accessCount := old(data)[key].accessCount + 1)]
        && accessOrder == Touch(old(accessOrder), key)
        && memoryUsage == old(memoryUsage)
      ensures r.None? ==> State() == if key in old(data) then DropEntry(old(State()), key) else old(State())
    {
      if key !in data {
        return None;
      }
      var entry := data[key];
      if Expired(entry, now) {
        DropEntryConsistent(State(), key);
        Drop(key);
        return None;
      }
      Hit(key, now);
      r := Some(entry.value);
    }

    /** A hit: the access is counted and the key becomes the most recently used. */
    method Hit(key: string, now: nat)
      requires Valid() && key in data
      modifies this
      ensures Valid()
      ensures data == old(data)[key := old(data)[key].(lastAccessed := now, accessCount := old(data)[key].accessCount + 1)]
      ensures accessOrder == Touch(old(accessOrder), key) && memoryUsage == old(memoryUsage)
    {
      var e := data[key].(lastAccessed := now, accessCount := data[key].accessCount + 1);
      SumFrame(accessOrder, data, data[key := e]);
      data := data[key := e];
      MoveToEnd(key);
    }

    /** The access order with `key` made most recent; the byte count is unchanged. */
    method MoveToEnd(key: string)
      requires NoDuplicates(accessOrder) && key in data
      requires (forall k :: k in data ==> k in accessOrder) && (forall k :: k in accessOrder ==> k in data)
      requires memoryUsage == SumSizes(accessOrder, data)
      modifies this
      ensures Valid()
      ensures accessOrder == Touch(old(accessOrder), key)
      ensures data == old(data) && memoryUsage == old(memoryUsage)
    {
      var rest := RemoveFirst(accessOrder, key);
      SumRemoveFirst(accessOrder, data, key);
      SumAppend(rest, data, key);
      TouchUnique(accessOrder, key);
      accessOrder := rest + [key];
    }

    method Drop(key: string)
      requires Valid() && key in data
      modifies this
      ensures Valid()
      ensures State() == DropEntry(old(State()), key)
    {
      DropEntryConsistent(State(), key);
      memoryUsage := memoryUsage - data[key].size;
      data := data - {key};
      accessOrder := RemoveFirst(accessOrder, key);
    }

    /**
     * `set`: when the new bytes would pass the limit, eviction first makes
     * room for them; then the entry (size = its byte length, normal
     * priority, expiring `ttl` after now when given) replaces any old one,
     * the byte count moves by the size difference and the key becomes the
     * most recently used.
     */
    method Set(key: string, value: seq<bv8>, ttl: Option<nat>, now: nat)
      requires Valid()
      modifies this
      ensures Valid()
      ensures key in data && data[key].value == value && data[key].size == |value| && data[key].accessCount == 0
      ensures data[key].expiresAt == (if ttl.Some? then Some(now + ttl.value) else None)
      ensures accessOrder[|accessOrder| - 1] == key
      ensures forall k :: k != key && k in data ==> k in old(data) && data[k] == old(data)[k]
      ensures old(memoryUsage) + |value| <= config.maxMemoryBytes ==>
        data == old(data)[key := data[key]] && memoryUsage == old(memoryUsage) - SizeOf(old(data), key) + |value|
      ensures var gone := if old(memoryUsage) + |value| > config.maxMemoryBytes
                then Victims(old(accessOrder), old(data), config.evictionPolicy, |value|, now) else {};
        && data == (old(data) - gone)[key := CacheEntry(value, now, now, 0, if ttl.Some? then Some(now + ttl.value) else None, Normal, [], |value|)]
        && accessOrder == Touch(Without(old(accessOrder), gone), key)
      ensures State() == SetState(old(State()), config, key, value, ttl, now)
    {
      var size := |value|;
      var entry := CacheEntry(value, now, now, 0, if ttl.Some? then Some(now + ttl.value) else None, Normal, [], size);
      ghost var gone := MakeRoom(size, now);
      ghost var mid := data;
      Put(key, entry);
      assert data == mid[key := entry];
    }

    /** The eviction step of `set`: only when `size` more bytes would pass the limit. */
    method MakeRoom(size: nat, now: nat) returns (ghost gone: set<string>)
      requires Valid()
      modifies this
      ensures Valid()
      ensures gone == if old(memoryUsage) + size > config.maxMemoryBytes
        then Victims(old(accessOrder), old(data), config.evictionPolicy, size, now) else {}
      ensures data == old(data) - gone && accessOrder == Without(old(accessOrder), gone)
      ensures old(memoryUsage) + size <= config.maxMemoryBytes ==> State() == old(State())
    {
      if memoryUsage + size > config.maxMemoryBytes {
        gone := Victims(accessOrder, data, config.evictionPolicy, size, now);
        EvictEntries(size, now);
      } else {
        gone := {};
        WithoutNothing(accessOrder);
      }
    }

    /** Stores an entry under a key, replacing any old one, as the most recently used. */
    method Put(key: string, entry: CacheEntry)
      requires Valid()
      modifies this
      ensures Valid()
      ensures data == old(data)[key := entry] && accessOrder == Touch(old(accessOrder), key)
      ensures memoryUsage == old(memoryUsage) - SizeOf(old(data), key) + entry.size
    {
      PutConsistent(State(), key, entry);
      memoryUsage := memoryUsage - SizeOf(data, key) + entry.size;
      data := data[key := entry];
      accessOrder := Touch(accessOrder, key);
    }

    /** `delete`: true exactly when the key had an entry, which then goes with its bytes. */
    method Delete(key: string) returns (deleted: bool)
      requires Valid()
      modifies this
      ensures Valid()
      ensures deleted <==> key in old(data)
      ensures State() == DropEntry(old(State()), key)
      ensures data == old(data) - {key}
    {
      if key in data {
        Drop(key);
        return true;
      }
      deleted := false;
    }

    /** `clear`: no entries, no access order, no bytes. */
    method Clear()
      modifies this
      ensures Valid() && data == map[] && accessOrder == [] && memoryUsage == 0
    {
      data := map[];
      memoryUsage := 0;
      accessOrder := [];
    }

    /** `get_stats`: the byte count and the number of entries; the other counters are zero. */
    function GetStats(): (r: CacheStats)
      reads this
      ensures r.memoryUsageBytes == memoryUsage && r.entryCount == |data|
      ensures r.hits == 0 && r.misses == 0 && r.writes == 0
    {
      EmptyStats.(memoryUsageBytes := memoryUsage, entryCount := |data|)
    }

    /**
     * `evict_entries`: LRU drops the least recently used entries until
     * the freed bytes reach the need; TTL drops every expired entry; the
     * other policies drop nothing.
     */
    method EvictEntries(needed: nat, now: nat)
      requires Valid()
      modifies this
      ensures Valid()
      ensures config.evictionPolicy.LRU? ==>
        data == old(data) - set x | x in LruVictims(old(accessOrder), old(data), needed, 0)
      ensures config.evictionPolicy.TTL? ==>
        data == map k | k in old(data) && !Expired(old(data)[k], now) :: old(data)[k]
      ensures !config.evictionPolicy.LRU? && !config.evictionPolicy.TTL? ==> State() == old(State())
      ensures data == old(data) - Victims(old(accessOrder), old(data), config.evictionPolicy, needed, now)
      ensures accessOrder == Without(old(accessOrder), Victims(old(accessOrder), old(data), config.evictionPolicy, needed, now))
    {
      if config.evictionPolicy.LRU? {
        var chosen := LruVictims(accessOrder, data, needed, 0);
        RemoveKeys(set x | x in chosen);
      } else if config.evictionPolicy.TTL? {
        ghost var start := data;
        RemoveKeys(set k | k in data && Expired(data[k], now));
        assert data == map k | k in start && !Expired(start[k], now) :: start[k];
      } else {
        WithoutNothing(accessOrder);
      }
    }

    /** Deletes the given keys one at a time. */
    method RemoveKeys(victims: set<string>)
      requires Valid()
      modifies this
      ensures Valid()
      ensures data == old(data) - victims
      ensures accessOrder == Without(old(accessOrder), victims)
    {
      var remaining := victims;
      ghost var gone: set<string> := {};
      WithoutNothing(accessOrder);
      while remaining != {}
        invariant Valid()
        invariant remaining <= victims && gone == victims - remaining
        invariant data == old(data) - gone
        invariant accessOrder == Without(old(accessOrder), gone)
        decreases |remaining|
      {
        var k :| k in remaining;
        RemoveKey(k, old(accessOrder), old(data), gone);
        remaining := remaining - {k};
        gone := gone + {k};
      }
      assert gone == victims;
    }

    /** One deletion of `RemoveKeys`: the key leaves the entries and the order. */
    method RemoveKey(k: string, ghost start: seq<string>, ghost startData: map<string, CacheEntry>, ghost gone: set<string>)
      requires Valid() && NoDuplicates(start) && k !in gone
      requires forall x :: x in start <==> x in startData
      requires data == startData - gone && accessOrder == Without(start, gone)
      modifies this
      ensures Valid()
      ensures data == startData - (gone + {k})
      ensures accessOrder == Without(start, gone + {k})
    {
      if k !in start {
        WithoutAbsent(start, gone, k);
      }
      RemoveFirstWithout(start, gone, k);
      var _ := Delete(k);
    }
  }

  /**
   * The layered cache manager: the memory layer first, then the optional
   * persistent and distributed layers, whose answers are given as
   * parameters (`None` when the layer is absent or has no value).
   */
  class AdvancedCacheManager {
    const memory: MemoryCache
    var stats: CacheStats

    constructor(strategy: CacheStrategy)
      ensures fresh(memory) && memory.Valid() && memory.data == map[] && memory.config == strategy
      ensures stats == EmptyStats
    {
      memory := new MemoryCache(strategy);
      stats := EmptyStats;
    }

    /** `update_stats`: one more hit or one more miss. */
    method UpdateStats(hit: bool)
      modifies this
      ensures stats == if hit then old(stats).(hits := old(stats).hits + 1) else old(stats).(misses := old(stats).misses + 1)
    {
      if hit {
        stats := stats.(hits := stats.hits + 1);
      } else {
        stats := stats.(misses := stats.misses + 1);
      }
    }

    /**
     * `get`: a memory hit; else a value from a lower layer, copied into
     * memory without expiry; else a miss. Exactly one of hits and misses
     * grows.
     */
    method Get(key: string, now: nat, persistent: Option<seq<bv8>>, distributed: Option<seq<bv8>>)
      returns (r: Option<seq<bv8>>)
      requires memory.Valid()
      modifies this, memory
      ensures memory.Valid()
      ensures stats.hits + stats.misses == old(stats.hits + stats.misses) + 1
      ensures r.Some? <==> stats.hits == old(stats.hits) + 1
      ensures key in old(memory.data) && !Expired(old(memory.data)[key], now) ==> r == Some(old(memory.data)[key].value)
      ensures (key !in old(memory.data) || Expired(old(memory.data)[key], now)) ==>
        r == (if persistent.Some? then persistent else distributed)
      ensures r.Some? ==> key in memory.data && memory.data[key].value == r.value
      ensures key in old(memory.data) && !Expired(old(memory.data)[key], now) ==>
        var e := old(memory.data)[key];
        memory.State() == MemoryState(old(memory.data)[key := e.(lastAccessed := now, accessCount := e.accessCount + 1)],
                                      Touch(old(memory.accessOrder), key), old(memory.memoryUsage))
      ensures (key !in old(memory.data) || Expired(old(memory.data)[key], now)) ==>
        var mid := if key in old(memory.data) then DropEntry(old(memory.State()), key) else old(memory.State());
        memory.State() == if r.Some? then SetState(mid, memory.config, key, r.value, None, now) else mid
    {
      var v := memory.Get(key, now);
      if v.Some? {
        UpdateStats(true);
        return v;
      }
      ghost var mid := memory.State();
      r := if persistent.Some? then persistent else distributed;
      Backfill(key, r, now);
      assert memory.State() == if r.Some? then SetState(mid, memory.config, key, r.value, None, now) else mid;
    }

    /** The miss path of `get`: a value from a lower layer is copied into memory without expiry and counted as a hit. */
    method Backfill(key: string, lower: Option<seq<bv8>>, now: nat)
      requires memory.Valid()
      modifies this, memory
      ensures memory.Valid()
      ensures memory.State() == if lower.Some? then SetState(old(memory.State()), memory.config, key, lower.value, None, now) else old(memory.State())
      ensures stats == if lower.Some? then old(stats).(hits := old(stats).hits + 1) else old(stats).(misses := old(stats).misses + 1)
    {
      if lower.Some? {
        memory.Set(key, lower.value, None, now);
      }
      UpdateStats(lower.Some?);
    }

    /** `set`: the value goes to memory and the write is counted. */
    method Set(key: string, value: seq<bv8>, ttl: Option<nat>, now: nat)
      requires memory.Valid()
      modifies this, memory
      ensures memory.Valid()
      ensures key in memory.data && memory.data[key].value == value
      ensures var gone := if old(memory.memoryUsage) + |value| > memory.config.maxMemoryBytes
                then Victims(old(memory.accessOrder), old(memory.data), memory.config.evictionPolicy, |value|, now) else {};
        && memory.data == (old(memory.data) - gone)[key := CacheEntry(value, now, now, 0, if ttl.Some? then Some(now + ttl.value) else None, Normal, [], |value|)]
        && memory.accessOrder == Touch(Without(old(memory.accessOrder), gone), key)
      ensures memory.State() == SetState(old(memory.State()), memory.config, key, value, ttl, now)
      ensures stats == old(stats).(writes := old(stats).writes + 1)
    {
      memory.Set(key, value, ttl, now);
      stats := stats.(writes := stats.writes + 1);
    }

    /**
     * `delete`: every layer is asked; the result says whether any of them
     * held the key, and only then is a delete counted.
     */
    method Delete(key: string, persistentDeleted: Option<bool>, distributedDeleted: Option<bool>)
      returns (deleted: bool)
      requires memory.Valid()
      modifies this, memory
      ensures memory.Valid() && memory.data == old(memory.data) - {key}
      ensures memory.State() == DropEntry(old(memory.State()), key)
      ensures deleted <==> key in old(memory.data) || persistentDeleted == Some(true) || distributedDeleted == Some(true)
      ensures stats == if deleted then old(stats).(deletes := old(stats).deletes + 1) else old(stats)
    {
      deleted := memory.Delete(key);
      if persistentDeleted == Some(true) {
        deleted := true;
      }
      if distributedDeleted == Some(true) {
        deleted := true;
      }
      if deleted {
        stats := stats.(deletes := stats.deletes + 1);
      }
    }

    /** `clear`: the memory layer is emptied; the statistics stay. */
    method Clear()
      modifies memory
      ensures memory.Valid() && memory.data == map[] && memory.memoryUsage == 0
    {
      memory.Clear();
    }

    /** `get_stats`: the manager's counters with the memory layer's byte count and size. */
    function GetStats(): (r: CacheStats)
      reads this, memory
      ensures r.hits == stats.hits && r.misses == stats.misses && r.writes == stats.writes && r.deletes == stats.deletes
      ensures r.memoryUsageBytes == memory.memoryUsage && r.entryCount == |memory.data|
    {
      stats.(memoryUsageBytes := memory.memoryUsage, entryCount := |memory.data|)
    }
  }
}
