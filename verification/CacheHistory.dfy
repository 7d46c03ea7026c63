/**
 When the in-memory cache of the client answers, and with what, told from the history of its
 operations: a fetch of the same key that has not run out of the time to live it was given,
 and has been neither cleared, nor invalidated, nor crowded out since.
 */
module CacheHistory {
  import opened Lists
  import opened NativeTypes
  import opened QueryCaches
  import opened CacheCoherence

  // ── The history of an entry ──

  /** Operation j is a cached call that went to the database and left its result in the cache. */
  predicate Fetches<Q, W>(cfg: Config<Q>, ops: seq<Op<Q, W>>, j: nat) {
    j < |ops| && ops[j].Ask? && ops[j].cached && ServedBy(cfg, ops, j).None?
  }

  /** The last moment at which a result fetched by the operation may be served. */
  function LastServed<Q, W>(cfg: Config<Q>, op: Op<Q, W>): int
    requires op.Ask?
  {
    match op.ttl
    case Some(ttl) => op.now + ttl
    case None => op.now + cfg.ttl
  }

  function KeyAt<Q, W>(cfg: Config<Q>, op: Op<Q, W>): Key
    requires op.Ask?
  {
    cfg.keyOf(op.query)
  }

  /** The operation clears the cache, or invalidates the key. */
  predicate Forgets<Q, W>(cfg: Config<Q>, op: Op<Q, W>, key: Key) {
    || op.Clear?
    || (op.Write? && op.outcome.Acknowledged? && cfg.clearOnWrite)
    || (op.Invalidate? && cfg.keyOf(op.query) == key)
  }

  /**
   Operation i fetches, finds the cache full of results of other keys, and that of operation j
   the one fetched first: it has to go.
   */
  predicate CrowdsOut<Q, W>(cfg: Config<Q>, ops: seq<Op<Q, W>>, i: nat, j: nat)
    requires i < |ops| && j < |ops| && ops[j].Ask?
  {
    && Fetches(cfg, ops, i) && KeyAt(cfg, ops[j]) != KeyAt(cfg, ops[i])
    && var held := Origins(cfg, ops[..i]).entries;
       var others := held.Keys - {KeyAt(cfg, ops[i])};
       |others| >= cfg.maxSize && forall k :: k in others ==> j <= held[k].value
  }

  /** Operation i asks for the key when the result of operation j has run out of time. */
  predicate FindsTooOld<Q, W>(cfg: Config<Q>, ops: seq<Op<Q, W>>, i: nat, j: nat)
    requires i < |ops| && j < |ops| && ops[j].Ask?
  {
    && ops[i].Ask? && ops[i].cached && KeyAt(cfg, ops[i]) == KeyAt(cfg, ops[j])
    && ops[i].now > LastServed(cfg, ops[j])
  }

  /** The result of operation j is still in the cache after the run. */
  ghost predicate Held<Q, W>(cfg: Config<Q>, ops: seq<Op<Q, W>>, j: nat) {
    && Fetches(cfg, ops, j)
    && forall i :: j < i < |ops| ==>
         !Forgets(cfg, ops[i], KeyAt(cfg, ops[j])) && !CrowdsOut(cfg, ops, i, j) && !FindsTooOld(cfg, ops, i, j)
  }

  // ── What a store holds ──

  /** Every entry is the result of one of these operations. */
  ghost predicate Backed<Q, W>(cfg: Config<Q>, ops: seq<Op<Q, W>>, store: Store<nat>, held: set<nat>) {
    forall k {:trigger store.entries[k]} :: k in store.entries ==>
      var j := store.entries[k].value;
      && j in held && j < |ops| && ops[j].Ask? && KeyAt(cfg, ops[j]) == k
      && store.entries[k].expiresAt == LastServed(cfg, ops[j])
  }

  /** Every one of these operations has its result there. */
  ghost predicate Present<Q, W>(cfg: Config<Q>, ops: seq<Op<Q, W>>, store: Store<nat>, held: set<nat>) {
    forall j :: j in held ==>
      && j < |ops| && ops[j].Ask?
      && KeyAt(cfg, ops[j]) in store.entries && store.entries[KeyAt(cfg, ops[j])].value == j
  }

  /** The store holds exactly the results of these operations, in the order they were fetched. */
  ghost predicate Stores<Q, W>(cfg: Config<Q>, ops: seq<Op<Q, W>>, store: Store<nat>, held: set<nat>) {
    Consistent(store) && InOrder(store.keys, store.entries) && Backed(cfg, ops, store, held) && Present(cfg, ops, store, held)
  }

  /** The keys are in the order of the operations that fetched their results. */
  ghost predicate InOrder(keys: seq<Key>, entries: map<Key, Entry<nat>>) {
    && (forall a :: 0 <= a < |keys| ==> keys[a] in entries)
    && forall a, b :: 0 <= a < b < |keys| ==> entries[keys[a]].value < entries[keys[b]].value
  }

  lemma InOrderSplits(keys: seq<Key>, entries: map<Key, Entry<nat>>)
    requires keys != []
    ensures InOrder(keys, entries) <==>
      && keys[0] in entries && InOrder(keys[1..], entries)
      && forall k :: k in keys[1..] ==> entries[keys[0]].value < entries[k].value
  {
    var rest := keys[1..];
    assert forall a :: 0 <= a < |rest| ==> rest[a] == keys[a + 1];
    if InOrder(keys, entries) {
      forall a, b | 0 <= a < b < |rest| ensures entries[rest[a]].value < entries[rest[b]].value {
        assert keys[a + 1] == rest[a] && keys[b + 1] == rest[b];
      }
      forall a | 0 <= a < |rest| ensures rest[a] in entries { assert keys[a + 1] in entries; }
    }
    if keys[0] in entries && InOrder(rest, entries) && forall k :: k in rest ==> entries[keys[0]].value < entries[k].value {
      forall a | 0 <= a < |keys| ensures keys[a] in entries { if a > 0 { assert rest[a - 1] in entries; } }
      forall a, b | 0 <= a < b < |keys| ensures entries[keys[a]].value < entries[keys[b]].value {
        assert keys[b] == rest[b - 1];
        if a > 0 { assert keys[a] == rest[a - 1]; }
      }
    }
  }

  lemma {:induction false} WithoutKeepsOrder(keys: seq<Key>, entries: map<Key, Entry<nat>>, x: Key)
    requires InOrder(keys, entries)
    ensures InOrder(Without(keys, x), entries)
  {
    hide InOrder;
    if keys != [] {
      InOrderSplits(keys, entries);
      WithoutKeepsOrder(keys[1..], entries, x);
      if keys[0] != x {
        WithoutHolds(keys[1..], x);
        InOrderSplits(Without(keys, x), entries);
        assert Without(keys, x)[1..] == Without(keys[1..], x);
      }
    }
  }

  lemma DeleteInOrder(store: Store<nat>, key: Key)
    requires Consistent(store) && InOrder(store.keys, store.entries)
    ensures Consistent(Delete(store, key)) && InOrder(Delete(store, key).keys, Delete(store, key).entries)
  {
    DeleteKeepsConsistent(store, key);
    WithoutKeepsOrder(store.keys, store.entries, key);
    WithoutHolds(store.keys, key);
    var store' := Delete(store, key);
    assert forall a :: 0 <= a < |store'.keys| ==> store'.keys[a] in store'.keys;
  }

  /** Of these operations, those for other keys. */
  ghost function Others<Q, W>(cfg: Config<Q>, ops: seq<Op<Q, W>>, held: set<nat>, key: Key): set<nat> {
    set j | j in held && !(j < |ops| && ops[j].Ask? && KeyAt(cfg, ops[j]) == key)
  }

  lemma DeleteStores<Q, W>(cfg: Config<Q>, ops: seq<Op<Q, W>>, store: Store<nat>, held: set<nat>, key: Key)
    requires Stores(cfg, ops, store, held)
    ensures Stores(cfg, ops, Delete(store, key), Others(cfg, ops, held, key))
  {
    DeleteInOrder(store, key);
    hide InOrder, Consistent, Without, KeyAt, LastServed;
  }

  lemma InsertStores<Q, W>(cfg: Config<Q>, ops: seq<Op<Q, W>>, op: Op<Q, W>, store: Store<nat>, held: set<nat>)
    requires Stores(cfg, ops, store, held) && op.Ask? && KeyAt(cfg, op) !in store.entries
    ensures Stores(cfg, ops + [op], Insert(store, KeyAt(cfg, op), Entry(|ops|, LastServed(cfg, op))), held + {|ops|})
  {
    var all, key := ops + [op], KeyAt(cfg, op);
    var store' := Insert(store, key, Entry(|ops|, LastServed(cfg, op)));
    InsertInOrder(cfg, ops, store, held, key, Entry(|ops|, LastServed(cfg, op)));
    hide InOrder, Consistent, KeyAt, LastServed;
    assert all[|ops|] == op && forall j :: 0 <= j < |ops| ==> all[j] == ops[j];
    assert Backed(cfg, all, store', held + {|ops|}) by { hide Present; }
    assert Present(cfg, all, store', held + {|ops|}) by { hide Backed; }
    hide Backed, Present, Insert;
  }

  lemma InsertInOrder<Q, W>(
    cfg: Config<Q>, ops: seq<Op<Q, W>>, store: Store<nat>, held: set<nat>, key: Key, e: Entry<nat>)
    requires Stores(cfg, ops, store, held) && key !in store.entries && e.value == |ops|
    ensures var store' := Insert(store, key, e); Consistent(store') && InOrder(store'.keys, store'.entries)
  {
    var store' := Insert(store, key, e);
    assert forall a :: 0 <= a < |store.keys| ==> store.keys[a] in store.keys && store.keys[a] in store.entries;
    assert forall a :: 0 <= a < |store.keys| ==> store.entries[store.keys[a]].value < |ops|;
  }

  lemma LaterStores<Q, W>(cfg: Config<Q>, ops: seq<Op<Q, W>>, op: Op<Q, W>, store: Store<nat>, held: set<nat>)
    requires Stores(cfg, ops, store, held)
    ensures Stores(cfg, ops + [op], store, held)
  {
    assert forall j :: 0 <= j < |ops| ==> (ops + [op])[j] == ops[j];
  }

  lemma {:induction false} AsManyKeys<T>(keys: seq<T>, s: set<T>)
    requires NoDuplicates(keys) && forall k :: k in keys <==> k in s
    ensures |keys| == |s|
  {
    if keys == [] {
      assert s == {};
    } else {
      assert keys[0] in s && keys[0] !in keys[1..];
      assert forall k :: k in keys <==> k == keys[0] || k in keys[1..];
      AsManyKeys(keys[1..], s - {keys[0]});
    }
  }

  /** The first key of a store is that of the result fetched first. */
  lemma FirstIsEldest<Q, W>(cfg: Config<Q>, ops: seq<Op<Q, W>>, store: Store<nat>, held: set<nat>)
    requires Stores(cfg, ops, store, held) && store.keys != []
    ensures store.keys[0] in store.entries
    ensures forall k :: k in store.entries ==> store.entries[store.keys[0]].value <= store.entries[k].value
  {
    assert store.keys[0] in store.keys;
    forall k | k in store.entries ensures store.entries[store.keys[0]].value <= store.entries[k].value {
      var a :| 0 <= a < |store.keys| && store.keys[a] == k;
    }
  }

  // ── One operation more ──

  ghost function HeldSet<Q, W>(cfg: Config<Q>, ops: seq<Op<Q, W>>): set<nat> {
    set j | 0 <= j < |ops| && Held(cfg, ops, j)
  }

  lemma HeldOneMore<Q, W>(cfg: Config<Q>, ops: seq<Op<Q, W>>, op: Op<Q, W>, j: nat)
    ensures var all, n := ops + [op], |ops|;
      Held(cfg, all, j) <==>
        if j == n then Fetches(cfg, all, n)
        else Held(cfg, ops, j) && !Forgets(cfg, op, KeyAt(cfg, ops[j])) && !CrowdsOut(cfg, all, n, j)
             && !FindsTooOld(cfg, all, n, j)
  {
    var all, n := ops + [op], |ops|;
    assert forall i :: 0 <= i <= n ==> all[..i] == ops[..i];
    assert ops[..n] == ops && all[n] == op && forall i :: 0 <= i < n ==> all[i] == ops[i];
    hide Origins, Forgets, KeyAt, LastServed;
    assert forall i: nat :: i < n ==> Fetches(cfg, all, i) == Fetches(cfg, ops, i);
    if j < n && ops[j].Ask? {
      assert forall i: nat :: i < n ==> CrowdsOut(cfg, all, i, j) == CrowdsOut(cfg, ops, i, j);
      assert forall i: nat :: i < n ==> FindsTooOld(cfg, all, i, j) == FindsTooOld(cfg, ops, i, j);
    }
    hide CrowdsOut, FindsTooOld, Fetches;
    if Held(cfg, all, j) && j < n {
      assert forall i :: j < i < n ==> !CrowdsOut(cfg, all, i, j) && !FindsTooOld(cfg, all, i, j);
    }
  }

  /** The cache holds exactly what the history says that it holds. */
  lemma {:induction false} CacheHoldsTheHistory<Q, W>(cfg: Config<Q>, ops: seq<Op<Q, W>>)
    ensures Stores(cfg, ops, Origins(cfg, ops), HeldSet(cfg, ops))
  {
    if ops == [] {
      assert Origins(cfg, ops) == Empty();
    } else {
      var before, op := ops[..|ops| - 1], ops[|ops| - 1];
      assert before + [op] == ops;
      CacheHoldsTheHistory(cfg, before);
      OneMoreIsHeld(cfg, before, op);
      hide Stores, HeldSet;
    }
  }

  lemma OneMoreIsHeld<Q, W>(cfg: Config<Q>, ops: seq<Op<Q, W>>, op: Op<Q, W>)
    requires Stores(cfg, ops, Origins(cfg, ops), HeldSet(cfg, ops))
    ensures Stores(cfg, ops + [op], OriginsStep(cfg, Origins(cfg, ops), op, |ops|), HeldSet(cfg, ops + [op]))
  {
    if op.Ask? && op.cached {
      if ServedBy(cfg, ops + [op], |ops|).Some? { HitIsHeld(cfg, ops, op); } else { FetchIsHeld(cfg, ops, op); }
    } else {
      OtherIsHeld(cfg, ops, op);
    }
  }

  /** An operation that is not a cached call forgets what it forgets. */
  lemma OtherIsHeld<Q, W>(cfg: Config<Q>, ops: seq<Op<Q, W>>, op: Op<Q, W>)
    requires Stores(cfg, ops, Origins(cfg, ops), HeldSet(cfg, ops)) && !(op.Ask? && op.cached)
    ensures Stores(cfg, ops + [op], OriginsStep(cfg, Origins(cfg, ops), op, |ops|), HeldSet(cfg, ops + [op]))
  {
    hide Stores, Origins;
    OtherHeldSet(cfg, ops, op);
    var store, held, all := Origins(cfg, ops), HeldSet(cfg, ops), ops + [op];
    hide HeldSet, KeyAt;
    LaterStores(cfg, ops, op, store, held);
    if op.Invalidate? {
      var kept := Others(cfg, ops, held, cfg.keyOf(op.query));
      DeleteStores(cfg, ops, store, held, cfg.keyOf(op.query));
      LaterStores(cfg, ops, op, Delete(store, cfg.keyOf(op.query)), kept);
      assert HeldSet(cfg, all) == kept;
    } else if Forgets(cfg, op, Key("")) {
      NothingStored(cfg, all);
      assert HeldSet(cfg, all) == {};
    } else {
      assert HeldSet(cfg, all) == held;
    }
  }

  lemma OtherHeldSet<Q, W>(cfg: Config<Q>, ops: seq<Op<Q, W>>, op: Op<Q, W>)
    requires !(op.Ask? && op.cached)
    ensures forall j :: j in HeldSet(cfg, ops) ==> j < |ops| && ops[j].Ask?
    ensures forall j: nat :: j in HeldSet(cfg, ops + [op]) <==>
      j in HeldSet(cfg, ops) && !Forgets(cfg, op, KeyAt(cfg, ops[j]))
  {
    var all := ops + [op];
    assert all[|ops|] == op;
    hide Origins;
    forall j: nat ensures Held(cfg, all, j) <==> Held(cfg, ops, j) && !Forgets(cfg, op, KeyAt(cfg, ops[j])) {
      HeldOneMore(cfg, ops, op, j);
    }
    hide Held;
  }

  lemma NothingStored<Q, W>(cfg: Config<Q>, ops: seq<Op<Q, W>>)
    ensures Stores(cfg, ops, Empty(), {})
  {
  }

  lemma HitIsHeld<Q, W>(cfg: Config<Q>, ops: seq<Op<Q, W>>, op: Op<Q, W>)
    requires Stores(cfg, ops, Origins(cfg, ops), HeldSet(cfg, ops))
    requires op.Ask? && op.cached && ServedBy(cfg, ops + [op], |ops|).Some?
    ensures Stores(cfg, ops + [op], OriginsStep(cfg, Origins(cfg, ops), op, |ops|), HeldSet(cfg, ops + [op]))
  {
    var store, held, all := Origins(cfg, ops), HeldSet(cfg, ops), ops + [op];
    assert all[|ops|] == op && all[..|ops|] == ops;
    forall j: nat ensures Held(cfg, all, j) <==> Held(cfg, ops, j) {
      HeldOneMore(cfg, ops, op, j);
      if Held(cfg, ops, j) { assert j in held && all[j] == ops[j]; }
    }
    LaterStores(cfg, ops, op, store, held);
    hide Held, Stores, Origins, Set;
    assert HeldSet(cfg, all) == held;
  }

  /** Of the results held, a fetch finds too old exactly the one under its key. */
  lemma StaleIsTooOld<Q, W>(cfg: Config<Q>, ops: seq<Op<Q, W>>, op: Op<Q, W>, j: nat)
    requires Stores(cfg, ops, Origins(cfg, ops), HeldSet(cfg, ops)) && Held(cfg, ops, j)
    requires op.Ask? && op.cached && ServedBy(cfg, ops + [op], |ops|).None?
    ensures FindsTooOld(cfg, ops + [op], |ops|, j) <==> KeyAt(cfg, ops[j]) == KeyAt(cfg, op)
  {
    var all, store := ops + [op], Origins(cfg, ops);
    assert all[|ops|] == op && all[..|ops|] == ops && all[j] == ops[j] && j in HeldSet(cfg, ops);
    hide Held, Origins;
    if KeyAt(cfg, ops[j]) == KeyAt(cfg, op) {
      assert KeyAt(cfg, op) in store.entries && store.entries[KeyAt(cfg, op)].value == j;
    }
  }

  /** The cache is full, and j the operation whose result was fetched first of all that are in it. */
  predicate IsEldest(store: Store<nat>, maxSize: int, j: nat) {
    |store.entries| >= maxSize && forall k :: k in store.entries ==> j <= store.entries[k].value
  }

  ghost function Younger(store: Store<nat>, maxSize: int, held: set<nat>): set<nat> {
    set j | j in held && !IsEldest(store, maxSize, j)
  }

  lemma StoredKeys<Q, W>(cfg: Config<Q>, ops: seq<Op<Q, W>>, store: Store<nat>, held: set<nat>)
    requires Stores(cfg, ops, store, held)
    ensures |store.keys| == |store.entries|
    ensures forall j :: j in held ==>
      j < |ops| && ops[j].Ask? && KeyAt(cfg, ops[j]) in store.entries && store.entries[KeyAt(cfg, ops[j])].value == j
    ensures forall k :: k in store.entries ==>
      var j := store.entries[k].value; j in held && j < |ops| && ops[j].Ask? && KeyAt(cfg, ops[j]) == k
    ensures store.keys == [] ==> held == {}
  {
    AsManyKeys(store.keys, store.entries.Keys);
    hide InOrder, KeyAt, NoDuplicates;
    if j :| j in held { assert KeyAt(cfg, ops[j]) in store.keys; }
  }

  /** All but the eldest are those whose keys are not the first. */
  lemma YoungerAreOthers<Q, W>(cfg: Config<Q>, ops: seq<Op<Q, W>>, store: Store<nat>, held: set<nat>)
    requires Stores(cfg, ops, store, held) && store.keys != [] && |store.entries| >= cfg.maxSize
    ensures Younger(store, cfg.maxSize, held) == Others(cfg, ops, held, store.keys[0])
  {
    StoredKeys(cfg, ops, store, held);
    FirstIsEldest(cfg, ops, store, held);
    var key := store.keys[0];
    hide Stores;
    forall j | j in held ensures IsEldest(store, cfg.maxSize, j) <==> KeyAt(cfg, ops[j]) == key {
      var k := KeyAt(cfg, ops[j]);
      assert k in store.entries && store.entries[k].value == j;
      assert store.entries[key].value <= j;
      if IsEldest(store, cfg.maxSize, j) { assert j <= store.entries[key].value; }
    }
    hide IsEldest, KeyAt;
  }

  lemma NoneIsEldest<Q, W>(cfg: Config<Q>, ops: seq<Op<Q, W>>, store: Store<nat>, held: set<nat>)
    requires Stores(cfg, ops, store, held) && (store.keys == [] || |store.entries| < cfg.maxSize)
    ensures Younger(store, cfg.maxSize, held) == held
  {
    StoredKeys(cfg, ops, store, held);
    hide Stores, KeyAt;
    if store.keys == [] { assert held == {}; }
  }

  lemma RoomStores<Q, W>(cfg: Config<Q>, ops: seq<Op<Q, W>>, store: Store<nat>, held: set<nat>)
    requires Stores(cfg, ops, store, held)
    ensures Stores(cfg, ops, MadeRoom(store, cfg.maxSize), Younger(store, cfg.maxSize, held))
  {
    StoredKeys(cfg, ops, store, held);
    hide Stores, Delete, Younger, Others, KeyAt;
    if |store.keys| >= cfg.maxSize && store.keys != [] {
      YoungerAreOthers(cfg, ops, store, held);
      DeleteStores(cfg, ops, store, held, store.keys[0]);
    } else {
      NoneIsEldest(cfg, ops, store, held);
    }
  }

  /** A fetch crowds out the eldest result under another key, if the cache is full. */
  lemma CrowdedIsEldest<Q, W>(cfg: Config<Q>, ops: seq<Op<Q, W>>, op: Op<Q, W>, j: nat)
    requires op.Ask? && op.cached && ServedBy(cfg, ops + [op], |ops|).None?
    requires j < |ops| && ops[j].Ask? && KeyAt(cfg, ops[j]) != KeyAt(cfg, op)
    ensures CrowdsOut(cfg, ops + [op], |ops|, j) <==> IsEldest(Delete(Origins(cfg, ops), KeyAt(cfg, op)), cfg.maxSize, j)
  {
    var all, store, key := ops + [op], Origins(cfg, ops), KeyAt(cfg, op);
    var left := Delete(store, key);
    assert all[|ops|] == op && all[..|ops|] == ops && all[j] == ops[j];
    assert store.entries.Keys - {key} == left.entries.Keys;
    assert forall k :: k in left.entries ==> left.entries[k] == store.entries[k];
    assert |left.entries| == |left.entries.Keys|;
    hide Origins, Delete;
  }

  /**
   A cached call that fetches: what is too old under its key goes, then the eldest if the cache
   is full, and its own result comes.
   */
  lemma FetchIsHeld<Q, W>(cfg: Config<Q>, ops: seq<Op<Q, W>>, op: Op<Q, W>)
    requires Stores(cfg, ops, Origins(cfg, ops), HeldSet(cfg, ops))
    requires op.Ask? && op.cached && ServedBy(cfg, ops + [op], |ops|).None?
    ensures Stores(cfg, ops + [op], OriginsStep(cfg, Origins(cfg, ops), op, |ops|), HeldSet(cfg, ops + [op]))
  {
    hide Stores, Origins, MadeRoom, Delete, HeldSet, OriginsStep, Insert, ServedBy, Others, Younger, KeyAt, LastServed;
    var store, held, key := Origins(cfg, ops), HeldSet(cfg, ops), KeyAt(cfg, op);
    var left := Delete(store, key);
    var leftHeld := Others(cfg, ops, held, key);
    FetchStep(cfg, ops, op);
    DeleteStores(cfg, ops, store, held, key);
    RoomStores(cfg, ops, left, leftHeld);
    InsertStores(cfg, ops, op, MadeRoom(left, cfg.maxSize), Younger(left, cfg.maxSize, leftHeld));
    FetchSets(cfg, ops, op);
  }

  lemma FetchSets<Q, W>(cfg: Config<Q>, ops: seq<Op<Q, W>>, op: Op<Q, W>)
    requires Stores(cfg, ops, Origins(cfg, ops), HeldSet(cfg, ops))
    requires op.Ask? && op.cached && ServedBy(cfg, ops + [op], |ops|).None?
    ensures var left := Delete(Origins(cfg, ops), KeyAt(cfg, op));
      HeldSet(cfg, ops + [op]) == Younger(left, cfg.maxSize, Others(cfg, ops, HeldSet(cfg, ops), KeyAt(cfg, op))) + {|ops|}
  {
    hide Stores, Origins, Delete, HeldSet, ServedBy, KeyAt, IsEldest;
    FetchHeldSet(cfg, ops, op);
  }

  lemma RoomHasNoMore(store: Store<nat>, maxSize: int)
    ensures MadeRoom(store, maxSize).entries.Keys <= store.entries.Keys
  {
  }

  lemma FetchStep<Q, W>(cfg: Config<Q>, ops: seq<Op<Q, W>>, op: Op<Q, W>)
    requires op.Ask? && op.cached && ServedBy(cfg, ops + [op], |ops|).None?
    ensures var room := MadeRoom(Delete(Origins(cfg, ops), KeyAt(cfg, op)), cfg.maxSize);
      && KeyAt(cfg, op) !in room.entries
      && OriginsStep(cfg, Origins(cfg, ops), op, |ops|) ==
           Insert(room, KeyAt(cfg, op), Entry(|ops|, LastServed(cfg, op)))
  {
    assert (ops + [op])[|ops|] == op && (ops + [op])[..|ops|] == ops;
    var store, key := Origins(cfg, ops), KeyAt(cfg, op);
    hide Origins, Without, Insert, MadeRoom;
    RoomHasNoMore(Delete(store, key), cfg.maxSize);
    assert key !in Delete(store, key).entries && Get(store, key, op.now) == (Delete(store, key), None);
    hide Delete, Get;
  }

  /** What is held after a fetch: itself, and what was held under other keys but the eldest of it if the cache was full. */
  lemma FetchHeldSet<Q, W>(cfg: Config<Q>, ops: seq<Op<Q, W>>, op: Op<Q, W>)
    requires Stores(cfg, ops, Origins(cfg, ops), HeldSet(cfg, ops))
    requires op.Ask? && op.cached && ServedBy(cfg, ops + [op], |ops|).None?
    ensures forall j :: j in HeldSet(cfg, ops) ==> j < |ops| && ops[j].Ask?
    ensures var left := Delete(Origins(cfg, ops), KeyAt(cfg, op));
      forall j: nat :: j in HeldSet(cfg, ops + [op]) <==>
        j == |ops| || (j in HeldSet(cfg, ops) && KeyAt(cfg, ops[j]) != KeyAt(cfg, op) && !IsEldest(left, cfg.maxSize, j))
  {
    var all := ops + [op];
    var left := Delete(Origins(cfg, ops), KeyAt(cfg, op));
    assert all[|ops|] == op && all[..|ops|] == ops && Fetches(cfg, all, |ops|);
    hide Stores, Origins, Delete, IsEldest, KeyAt;
    forall j: nat
      ensures Held(cfg, all, j) <==>
        j == |ops| || (Held(cfg, ops, j) && KeyAt(cfg, ops[j]) != KeyAt(cfg, op) && !IsEldest(left, cfg.maxSize, j))
    {
      HeldOneMore(cfg, ops, op, j);
      if Held(cfg, ops, j) {
        StaleIsTooOld(cfg, ops, op, j);
        if KeyAt(cfg, ops[j]) != KeyAt(cfg, op) { CrowdedIsEldest(cfg, ops, op, j); }
      }
    }
    hide Held;
  }

  // ── What is served ──

  /** The result of operation j is there for a call of its key at this time. */
  ghost predicate CanServe<Q, W>(cfg: Config<Q>, ops: seq<Op<Q, W>>, j: nat, key: Key, now: int) {
    Held(cfg, ops, j) && KeyAt(cfg, ops[j]) == key && now <= LastServed(cfg, ops[j])
  }

  /**
   A cached call is answered from the cache exactly when a fetch of its key is still held and in
   its time: the time to live that fetch was given by its caller, or the default. It is answered
   with the result of that fetch.
   */
  lemma ServedFromHistory<Q, W>(cfg: Config<Q>, ops: seq<Op<Q, W>>, k: nat, j: nat)
    requires k < |ops| && ops[k].Ask? && ops[k].cached
    ensures ServedBy(cfg, ops, k) == Some(j) <==> CanServe(cfg, ops[..k], j, KeyAt(cfg, ops[k]), ops[k].now)
  {
    CacheHoldsTheHistory(cfg, ops[..k]);
    var store := Origins(cfg, ops[..k]);
    hide Origins, Held, Delete;
    if Held(cfg, ops[..k], j) { assert j in HeldSet(cfg, ops[..k]); }
  }

  // ── The client ──

  /** What each operation of a run was answered. */
  function AnswersOf<S, Q, W, V>(db: Database<S, Q, W, V>, cfg: Config<Q>, state: S, ops: seq<Op<Q, W>>):
      (answers: seq<Option<V>>)
    ensures |answers| == |ops|
  {
    if ops == [] then []
    else
      var before := ops[..|ops| - 1];
      AnswersOf(db, cfg, state, before) + [Apply(db, cfg, Run(db, cfg, state, before), ops[|ops| - 1]).1]
  }

  /** Two stores alike but for their values: where one has the position of an operation, the other has its answer. */
  ghost predicate Matches<V>(store: Store<V>, origins: Store<nat>, answers: seq<Option<V>>) {
    && store.keys == origins.keys && store.entries.Keys == origins.entries.Keys
    && forall k :: k in store.entries ==> MatchesAt(store.entries[k], origins.entries[k], answers)
  }

  predicate MatchesAt<V(==)>(e: Entry<V>, o: Entry<nat>, answers: seq<Option<V>>) {
    e.expiresAt == o.expiresAt && o.value < |answers| && answers[o.value] == Some(e.value)
  }

  lemma DeletingMatches<V>(store: Store<V>, origins: Store<nat>, answers: seq<Option<V>>, key: Key)
    requires Matches(store, origins, answers)
    ensures Matches(Delete(store, key), Delete(origins, key), answers)
  {
    hide MatchesAt, Without;
  }

  lemma GettingMatches<V>(store: Store<V>, origins: Store<nat>, answers: seq<Option<V>>, key: Key, now: int)
    requires Matches(store, origins, answers)
    ensures Matches(Get(store, key, now).0, Get(origins, key, now).0, answers)
    ensures var hit, from := Get(store, key, now).1, Get(origins, key, now).1;
      hit.Some? == from.Some? && (hit.Some? ==> from.value < |answers| && answers[from.value] == hit)
  {
    DeletingMatches(store, origins, answers, key);
    hide Delete;
    if key in store.entries { assert MatchesAt(store.entries[key], origins.entries[key], answers); }
  }

  lemma SettingMatches<V>(
    store: Store<V>, origins: Store<nat>, answers: seq<Option<V>>, maxSize: int, key: Key, value: V, at: nat, until: int)
    requires Matches(store, origins, answers) && at < |answers| && answers[at] == Some(value)
    ensures Matches(Set(store, maxSize, key, value, until), Set(origins, maxSize, key, at, until), answers)
  {
    if store.keys != [] { DeletingMatches(store, origins, answers, store.keys[0]); }
    hide Delete;
  }

  lemma LaterMatches<V>(store: Store<V>, origins: Store<nat>, answers: seq<Option<V>>, answer: Option<V>)
    requires Matches(store, origins, answers)
    ensures Matches(store, origins, answers + [answer])
  {
    forall k | k in store.entries ensures MatchesAt(store.entries[k], origins.entries[k], answers + [answer]) {
      assert MatchesAt(store.entries[k], origins.entries[k], answers);
    }
  }

  lemma {:induction false} RunMatches<S, Q, W, V>(db: Database<S, Q, W, V>, cfg: Config<Q>, state: S, ops: seq<Op<Q, W>>)
    ensures Matches(Run(db, cfg, state, ops).store, Origins(cfg, ops), AnswersOf(db, cfg, state, ops))
  {
    if ops != [] {
      var before, op := ops[..|ops| - 1], ops[|ops| - 1];
      RunMatches(db, cfg, state, before);
      StepMatches(db, cfg, Run(db, cfg, state, before), Origins(cfg, before), AnswersOf(db, cfg, state, before), op);
      hide Apply, OriginsStep, Matches;
    }
  }

  lemma StepMatches<S, Q, W, V>(
    db: Database<S, Q, W, V>, cfg: Config<Q>, c: Client<S, V>, origins: Store<nat>, answers: seq<Option<V>>, op: Op<Q, W>)
    requires Matches(c.store, origins, answers)
    ensures var (c', answer) := Apply(db, cfg, c, op);
      Matches(c'.store, OriginsStep(cfg, origins, op, |answers|), answers + [answer])
  {
    var (c', answer) := Apply(db, cfg, c, op);
    var all := answers + [answer];
    LaterMatches(c.store, origins, answers, answer);
    match op
    case Ask(query, cached, ttl, now) =>
      if cached {
        var key := cfg.keyOf(query);
        GettingMatches(c.store, origins, all, key, now);
        var left: Store<V>, left': Store<nat> := Get(c.store, key, now).0, Get(origins, key, now).0;
        hide Matches, Get, Set;
        if Get(c.store, key, now).1.None? {
          SettingMatches(left, left', all, cfg.maxSize, key, answer.value, |answers|, ExpiresAt(cfg, ttl, now));
        }
      }
    case Invalidate(query) => DeletingMatches(c.store, origins, all, cfg.keyOf(query));
    case _ =>
  }

  /**
   So the client answers a cached call from its cache exactly when a fetch of the same key is
   held and in its time, with what that fetch was answered and without asking the database; and
   otherwise it asks the database. A call without caching always does.
   */
  lemma ClientAnswersFromHistory<S, Q, W, V>(
    db: Database<S, Q, W, V>, cfg: Config<Q>, state: S, ops: seq<Op<Q, W>>,
    query: Q, cached: bool, ttl: Option<int>, now: int)
    ensures var c, key := Run(db, cfg, state, ops), cfg.keyOf(query);
      var (c', answer) := Apply(db, cfg, c, Op<Q, W>.Ask(query, cached, ttl, now));
      && (Get(c.store, key, now).1.Some? <==> exists j: nat :: CanServe(cfg, ops, j, key, now))
      && (forall j: nat :: cached && CanServe(cfg, ops, j, key, now) ==>
            j < |ops| && AnswersOf(db, cfg, state, ops)[j] == answer && c'.state == c.state)
      && (!cached || !(exists j: nat :: CanServe(cfg, ops, j, key, now)) ==>
            answer == Some(db.query(c.state, query).1) && c'.state == db.query(c.state, query).0)
  {
    var c, key := Run(db, cfg, state, ops), cfg.keyOf(query);
    var op := Op<Q, W>.Ask(query, true, ttl, now);
    var all := ops + [op];
    assert all[..|ops|] == ops && all[|ops|] == op;
    RunMatches(db, cfg, state, ops);
    GettingMatches(c.store, Origins(cfg, ops), AnswersOf(db, cfg, state, ops), key, now);
    forall j: nat ensures ServedBy(cfg, all, |ops|) == Some(j) <==> CanServe(cfg, ops, j, key, now) {
      ServedFromHistory(cfg, all, |ops|, j);
    }
    hide Matches, Get, CanServe, Run, Set, AnswersOf, Origins;
  }
}
