/**
 The caches of the TypeScript client: the bounded in-memory cache, which evicts in
 order of insertion, and the in-memory form of the persistent one. Times are
 milliseconds; a key is what `makeCacheKey` makes of a statement and its parameters.
 */
module QueryCaches {
  import opened Lists
  import opened NativeTypes

  datatype Key = Key(text: string)

  datatype Entry<+V> = Entry(value: V, expiresAt: int)

  /** A JavaScript map: its entries, and their keys in order of first insertion. */
  datatype Store<+V> = Store(keys: seq<Key>, entries: map<Key, Entry<V>>)

  ghost predicate Consistent<V>(s: Store<V>) {
    NoDuplicates(s.keys) && forall k :: k in s.keys <==> k in s.entries
  }

  function Delete<V>(s: Store<V>, key: Key): Store<V> {
    if key in s.entries then Store(Without(s.keys, key), s.entries - {key}) else s
  }

  function Get<V>(s: Store<V>, key: Key, now: int): (Store<V>, Option<V>) {
    if key !in s.entries then (s, None)
    else if now > s.entries[key].expiresAt then (Delete(s, key), None)
    else (s, Some(s.entries[key].value))
  }

  /** Makes room for one more: when the store is full the first inserted entry goes. */
  function MadeRoom<V>(s: Store<V>, maxSize: int): Store<V> {
    if |s.keys| >= maxSize && s.keys != [] then Delete(s, s.keys[0]) else s
  }

  function Insert<V>(s: Store<V>, key: Key, entry: Entry<V>): Store<V> {
    Store(if key in s.entries then s.keys else s.keys + [key], s.entries[key := entry])
  }

  function Set<V>(s: Store<V>, maxSize: int, key: Key, value: V, expiresAt: int): Store<V> {
    Insert(MadeRoom(s, maxSize), key, Entry(value, expiresAt))
  }

  function Empty<V>(): Store<V> {
    Store([], map[])
  }

  class QueryCache<V> {
    const ttl: int
    const maxSize: int
    var keys: seq<Key>
    var entries: map<Key, Entry<V>>

    ghost function Value(): Store<V>
      reads this
    {
      Store(keys, entries)
    }

    /** The map is in order, and within its bound: at least one entry fits whatever the bound is. */
    ghost predicate Valid()
      reads this
    {
      Consistent(Value()) && |keys| <= Max(1, maxSize)
    }

    constructor (ttl: int, maxSize: int)
      ensures Valid() && this.ttl == ttl && this.maxSize == maxSize && Value() == Empty()
    {
      this.ttl, this.maxSize, keys, entries := ttl, maxSize, [], map[];
    }

    method Lookup(key: Key, now: int) returns (hit: Option<V>)
      requires Valid()
      modifies this
      ensures Valid() && (Value(), hit) == Get(old(Value()), key, now)
    {
      if key !in entries { return None; }
      var entry := entries[key];
      if now > entry.expiresAt {
        Remove(key);
        return None;
      }
      return Some(entry.value);
    }

    method Remove(key: Key)
      requires Valid()
      modifies this
      ensures Valid() && Value() == Delete(old(Value()), key)
    {
      DeleteKeepsConsistent(Value(), key);
      if key in entries {
        keys := Without(keys, key);
        entries := entries - {key};
      }
    }

    method Put(key: Key, result: V, ttl: Option<int>, now: int)
      requires Valid()
      modifies this
      ensures Valid()
      ensures Value() == Set(old(Value()), maxSize, key, result, now + if ttl.Some? then ttl.value else this.ttl)
    {
      SetKeepsConsistent(Value(), maxSize, key, Entry(result, now + if ttl.Some? then ttl.value else this.ttl));
      if |keys| >= maxSize && keys != [] { Remove(keys[0]); }
      if key !in entries { keys := keys + [key]; }
      entries := entries[key := Entry(result, now + if ttl.Some? then ttl.value else this.ttl)];
    }

    method Clear()
      modifies this
      ensures Valid() && Value() == Empty()
    {
      keys, entries := [], map[];
    }
  }

  lemma DeleteKeepsConsistent<V>(s: Store<V>, key: Key)
    requires Consistent(s)
    ensures Consistent(Delete(s, key))
    ensures |Delete(s, key).keys| == if key in s.entries then |s.keys| - 1 else |s.keys|
  {
    WithoutHolds(s.keys, key);
  }

  /** The size stays within the bound, whatever is set. */
  lemma SetKeepsConsistent<V>(s: Store<V>, maxSize: int, key: Key, entry: Entry<V>)
    requires Consistent(s) && |s.keys| <= Max(1, maxSize)
    ensures var s' := Insert(MadeRoom(s, maxSize), key, entry); Consistent(s') && |s'.keys| <= Max(1, maxSize)
  {
    if s.keys != [] {
      assert s.keys[0] in s.keys;
      DeleteKeepsConsistent(s, s.keys[0]);
    }
  }

  /** Nothing but the new entry and what was there before is ever in the store. */
  lemma SetHolds<V>(s: Store<V>, maxSize: int, key: Key, value: V, expiresAt: int, k: Key)
    requires k in Set(s, maxSize, key, value, expiresAt).entries
    ensures var e := Set(s, maxSize, key, value, expiresAt).entries[k];
      if k == key then e == Entry(value, expiresAt) else k in s.entries && e == s.entries[k]
  {
  }

  // ── The persistent cache ──

  datatype StoredEntry<+V> = StoredEntry(result: V, expiresAt: int, group: string)

  /**
   The persistent cache over its entries, which are in an IndexedDB store, or in memory where
   there is none. The two differ in one thing only: a purge of the IndexedDB store also takes
   an entry at the very moment it expires, which a lookup would still serve.
   */
  class PersistentCache<V> {
    const inMemory: bool
    const defaultTtl: int
    const defaultGroup: string
    var entries: map<Key, StoredEntry<V>>

    constructor (inMemory: bool, defaultTtl: int, defaultGroup: string)
      ensures this.inMemory == inMemory && this.defaultTtl == defaultTtl && this.defaultGroup == defaultGroup
      ensures entries == map[]
    {
      this.inMemory, this.defaultTtl, this.defaultGroup, entries := inMemory, defaultTtl, defaultGroup, map[];
    }

    /** Serves an entry up to and at its expiry; a lookup after it removes the entry. */
    method Lookup(key: Key, now: int) returns (hit: Option<V>)
      modifies this
      ensures hit == if key in old(entries) && now <= old(entries)[key].expiresAt
                     then Some(old(entries)[key].result) else None
      ensures entries == if key in old(entries) && hit.None? then old(entries) - {key} else old(entries)
    {
      if key !in entries { return None; }
      if now > entries[key].expiresAt {
        entries := entries - {key};
        return None;
      }
      return Some(entries[key].result);
    }

    method Put(key: Key, result: V, ttl: Option<int>, group: Option<string>, now: int)
      modifies this
      ensures entries == old(entries)[key := StoredEntry(
        result, now + if ttl.Some? then ttl.value else defaultTtl, if group.Some? then group.value else defaultGroup)]
    {
      var resolvedTtl := if ttl.Some? then ttl.value else defaultTtl;
      var resolvedGroup := if group.Some? then group.value else defaultGroup;
      entries := entries[key := StoredEntry(result, now + resolvedTtl, resolvedGroup)];
    }

    /** Removes what belongs to the group, and nothing else. */
    method InvalidateGroup(group: string)
      modifies this
      ensures entries == map k | k in old(entries) && old(entries)[k].group != group :: old(entries)[k]
    {
      ghost var before := entries;
      var todo := entries.Keys;
      while todo != {}
        invariant todo <= before.Keys
        invariant entries == map k | k in before && (k in todo || before[k].group != group) :: before[k]
        decreases todo
      {
        var key :| key in todo;
        if entries[key].group == group { entries := entries - {key}; }
        todo := todo - {key};
      }
    }

    /** Whether a purge takes an entry. */
    predicate Purges(e: StoredEntry<V>, now: int) {
      if inMemory then now > e.expiresAt else e.expiresAt <= now
    }

    /**
     Removes what a purge takes, and says how much that was: what can no longer be served,
     and of an IndexedDB store what expires just now.
     */
    method PurgeExpired(now: int) returns (count: nat)
      modifies this
      ensures entries == map k | k in old(entries) && !Purges(old(entries)[k], now) :: old(entries)[k]
      ensures count == |set k | k in old(entries) && Purges(old(entries)[k], now)|
      ensures forall k :: k in old(entries) && k !in entries ==>
        now > old(entries)[k].expiresAt || (!inMemory && now == old(entries)[k].expiresAt)
    {
      ghost var before := entries;
      ghost var gone: set<Key> := {};
      var todo := entries.Keys;
      count := 0;
      while todo != {}
        invariant todo <= before.Keys
        invariant entries == map k | k in before && (k in todo || !Purges(before[k], now)) :: before[k]
        invariant gone == set k | k in before && k !in todo && Purges(before[k], now)
        invariant count == |gone|
        decreases todo
      {
        var key :| key in todo;
        if Purges(entries[key], now) {
          entries := entries - {key};
          count := count + 1;
          gone := gone + {key};
        }
        todo := todo - {key};
      }
      assert gone == set k | k in before && Purges(before[k], now);
    }
  }
}
