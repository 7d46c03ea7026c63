/**
 The client of one writer, one call at a time, with only the in-memory cache: when what
 it answers is what a client without a cache would be answered.
 */
module CacheCoherence {
  import opened Lists
  import opened NativeTypes
  import opened QueryCaches

  /** A database as the client sees it. A query is any statement `execute` is given: it may change the state, too. */
  datatype Database<!S, !Q, !W, !V> = Database(query: (S, Q) -> (S, V), write: (S, W) -> S)

  /** How a write ends for the client: with an answer, or with an error that came before or after it took effect. */
  datatype Outcome = Acknowledged | FailedBefore | FailedAfter

  datatype Op<Q, W> =
    | Ask(query: Q, cached: bool, ttl: Option<int>, now: int)
    | Write(write: W, outcome: Outcome)
    | Invalidate(query: Q)
    | Clear

  /** What the cache goes by: the key of a statement, its default time to live, its bound, and whether writes clear it. */
  datatype Config<!Q> = Config(keyOf: Q -> Key, ttl: int, maxSize: int, clearOnWrite: bool)

  datatype Client<S, V> = Client(state: S, store: Store<V>)

  function ExpiresAt<Q>(cfg: Config<Q>, ttl: Option<int>, now: int): int {
    now + if ttl.Some? then ttl.value else cfg.ttl
  }

  /** What a write, an invalidation or a clearing does to the cache. */
  function Forgotten<Q, W, V>(cfg: Config<Q>, store: Store<V>, op: Op<Q, W>): Store<V> {
    match op
    case Ask(_, _, _, _) => store
    case Write(_, outcome) => if outcome.Acknowledged? && cfg.clearOnWrite then Empty() else store
    case Invalidate(query) => Delete(store, cfg.keyOf(query))
    case Clear => Empty()
  }

  function Apply<S, Q, W, V>(db: Database<S, Q, W, V>, cfg: Config<Q>, c: Client<S, V>, op: Op<Q, W>):
      (Client<S, V>, Option<V>) {
    match op
    case Ask(query, cached, ttl, now) =>
      if !cached then
        var (state, result) := db.query(c.state, query);
        (c.(state := state), Some(result))
      else
        var key := cfg.keyOf(query);
        var (store, hit) := Get(c.store, key, now);
        if hit.Some? then (c.(store := store), hit)
        else
          var (state, result) := db.query(c.state, query);
          (Client(state, Set(store, cfg.maxSize, key, result, ExpiresAt(cfg, ttl, now))), Some(result))
    case Write(write, outcome) =>
      (Client(if outcome.FailedBefore? then c.state else db.write(c.state, write), Forgotten(cfg, c.store, op)), None)
    case _ => (c.(store := Forgotten(cfg, c.store, op)), None)
  }

  class HranaClient<S, Q, W, V> {
    const db: Database<S, Q, W, V>
    const cfg: Config<Q>
    const cache: QueryCache<V>
    /** The database at the other end; only `Execute` and `Run` reach it. */
    var state: S

    ghost predicate Valid()
      reads this, cache
    {
      cache.Valid() && cache.ttl == cfg.ttl && cache.maxSize == cfg.maxSize
    }

    ghost function Value(): Client<S, V>
      reads this, cache
    {
      Client(state, cache.Value())
    }

    constructor (db: Database<S, Q, W, V>, cfg: Config<Q>, state: S)
      ensures this.db == db && this.cfg == cfg && Value() == Client(state, Empty())
      ensures Valid() && fresh(cache)
    {
      this.db, this.cfg, this.state := db, cfg, state;
      cache := new QueryCache(cfg.ttl, cfg.maxSize);
    }

    method Execute(query: Q, cached: bool, ttl: Option<int>, now: int) returns (result: V, fromCache: bool)
      requires Valid()
      modifies this, cache
      ensures Valid()
      ensures (Value(), Some(result)) == Apply(db, cfg, old(Value()), Ask(query, cached, ttl, now))
      ensures fromCache <==> cached && Get(old(cache.Value()), cfg.keyOf(query), now).1.Some?
    {
      if !cached {
        var after := db.query(state, query);
        state := after.0;
        return after.1, false;
      }
      var key := cfg.keyOf(query);
      var hit := cache.Lookup(key, now);
      if hit.Some? { return hit.value, true; }
      var after := db.query(state, query);
      state := after.0;
      cache.Put(key, after.1, ttl, now);
      return after.1, false;
    }

    /** A write that ends in an error leaves the cache alone, whether it took effect or not. */
    method Run(write: W, outcome: Outcome)
      requires Valid()
      modifies this, cache
      ensures Valid()
      ensures Value() == Apply(db, cfg, old(Value()), Write(write, outcome)).0
    {
      if !outcome.FailedBefore? { state := db.write(state, write); }
      if outcome.Acknowledged? && cfg.clearOnWrite { cache.Clear(); }
    }
  }

  // ── Runs, with and without a cache ──

  function Run<S, Q, W, V>(db: Database<S, Q, W, V>, cfg: Config<Q>, state: S, ops: seq<Op<Q, W>>): Client<S, V> {
    if ops == [] then Client(state, Empty())
    else Apply(db, cfg, Run(db, cfg, state, ops[..|ops| - 1]), ops[|ops| - 1]).0
  }

  /** The same operation for a client that has no cache. */
  function ApplyPlain<S, Q, W, V>(db: Database<S, Q, W, V>, state: S, op: Op<Q, W>): (S, Option<V>) {
    match op
    case Ask(query, _, _, _) => var (after, result) := db.query(state, query); (after, Some(result))
    case Write(write, outcome) => (if outcome.FailedBefore? then state else db.write(state, write), None)
    case _ => (state, None)
  }

  function RunPlain<S, Q, W, V>(db: Database<S, Q, W, V>, state: S, ops: seq<Op<Q, W>>): S {
    if ops == [] then state
    else ApplyPlain(db, RunPlain(db, state, ops[..|ops| - 1]), ops[|ops| - 1]).0
  }

  /** Every answer of a run is the one a client without a cache gets at that point of the same run. */
  ghost predicate AllCurrent<S, Q, W, V>(db: Database<S, Q, W, V>, cfg: Config<Q>, state: S, ops: seq<Op<Q, W>>) {
    forall k :: 0 <= k < |ops| ==> CurrentAt(db, cfg, state, ops, k)
  }

  ghost predicate CurrentAt<S, Q, W, V>(db: Database<S, Q, W, V>, cfg: Config<Q>, state: S, ops: seq<Op<Q, W>>, k: nat)
    requires k < |ops|
  {
    Apply(db, cfg, Run(db, cfg, state, ops[..k]), ops[k]).1 == ApplyPlain(db, RunPlain(db, state, ops[..k]), ops[k]).1
  }

  // ── Which operation an answer comes from ──

  /**
   The cache of a run with, for every entry, the position of the operation that put it
   there in place of its value. It depends on keys and times only, on no database.
   */
  function Origins<Q, W>(cfg: Config<Q>, ops: seq<Op<Q, W>>): Store<nat> {
    if ops == [] then Empty()
    else OriginsStep(cfg, Origins(cfg, ops[..|ops| - 1]), ops[|ops| - 1], |ops| - 1)
  }

  function OriginsStep<Q, W>(cfg: Config<Q>, store: Store<nat>, op: Op<Q, W>, at: nat): Store<nat> {
    match op
    case Ask(query, cached, ttl, now) =>
      if !cached then store
      else
        var (store', hit) := Get(store, cfg.keyOf(query), now);
        if hit.Some? then store'
        else Set(store', cfg.maxSize, cfg.keyOf(query), at, ExpiresAt(cfg, ttl, now))
    case _ => Forgotten(cfg, store, op)
  }

  /** The operation whose result answers operation k from the cache, if the cache answers it. */
  function ServedBy<Q, W>(cfg: Config<Q>, ops: seq<Op<Q, W>>, k: nat): Option<nat>
    requires k < |ops|
  {
    if ops[k].Ask? && ops[k].cached then Get(Origins(cfg, ops[..k]), cfg.keyOf(ops[k].query), ops[k].now).1 else None
  }

  /**
   Operations that may change the database: a write that did not fail before taking effect,
   or a statement with an effect.
   */
  predicate Effectful<Q, W>(effect: Q -> bool, op: Op<Q, W>) {
    match op
    case Ask(query, _, _, _) => effect(query)
    case Write(_, outcome) => !outcome.FailedBefore?
    case _ => false
  }

  /** Nothing from operation j on has an effect before operation k. */
  ghost predicate Quiet<Q, W>(effect: Q -> bool, ops: seq<Op<Q, W>>, j: nat, k: nat)
    requires k <= |ops|
  {
    forall i :: j <= i < k ==> !Effectful(effect, ops[i])
  }

  /** An answer from the cache is to the same statement, and nothing has had an effect since. */
  ghost predicate CleanAt<Q, W>(cfg: Config<Q>, effect: Q -> bool, ops: seq<Op<Q, W>>, k: nat)
    requires k < |ops|
  {
    var j := ServedBy(cfg, ops, k);
    j.Some? ==> j.value < k && ops[j.value].Ask? && ops[j.value].query == ops[k].query && Quiet(effect, ops, j.value, k)
  }

  ghost predicate Clean<Q, W>(cfg: Config<Q>, effect: Q -> bool, ops: seq<Op<Q, W>>) {
    forall k :: 0 <= k < |ops| ==> CleanAt(cfg, effect, ops, k)
  }

  /** Statements without an effect leave the state of the database alone. */
  ghost predicate Respects<S(!new), Q(!new), W, V>(db: Database<S, Q, W, V>, effect: Q -> bool) {
    forall s, q {:trigger db.query(s, q)} :: !effect(q) ==> db.query(s, q).0 == s
  }

  // ── The cache against its origins ──

  /** A cache that holds, under the same keys until the same times, what the operations of origin were answered. */
  ghost predicate HoldsResults<S, Q, W, V>(db: Database<S, Q, W, V>, state: S, ops: seq<Op<Q, W>>,
                                           store: Store<V>, origins: Store<nat>)
  {
    && store.keys == origins.keys
    && store.entries.Keys == origins.entries.Keys
    && forall key :: key in store.entries ==> HoldsResult(db, state, ops, store.entries[key], origins.entries[key])
  }

  ghost predicate HoldsResult<S, Q, W, V>(
    db: Database<S, Q, W, V>, state: S, ops: seq<Op<Q, W>>, e: Entry<V>, o: Entry<nat>) {
    && e.expiresAt == o.expiresAt && o.value < |ops| && ops[o.value].Ask?
    && e.value == db.query(RunPlain(db, state, ops[..o.value]), ops[o.value].query).1
  }

  lemma DeletingHolds<S, Q, W, V>(
    db: Database<S, Q, W, V>, state: S, ops: seq<Op<Q, W>>, store: Store<V>, origins: Store<nat>, key: Key)
    requires HoldsResults(db, state, ops, store, origins)
    ensures HoldsResults(db, state, ops, Delete(store, key), Delete(origins, key))
  {
    hide HoldsResult, Without;
  }

  lemma GettingHolds<S, Q, W, V>(
    db: Database<S, Q, W, V>, state: S, ops: seq<Op<Q, W>>, store: Store<V>, origins: Store<nat>, key: Key, now: int)
    requires HoldsResults(db, state, ops, store, origins)
    ensures HoldsResults(db, state, ops, Get(store, key, now).0, Get(origins, key, now).0)
    ensures var hit, hit' := Get(store, key, now).1, Get(origins, key, now).1;
      && hit.Some? == hit'.Some?
      && (hit.Some? ==>
            && hit'.value < |ops| && ops[hit'.value].Ask?
            && hit.value == db.query(RunPlain(db, state, ops[..hit'.value]), ops[hit'.value].query).1)
  {
    DeletingHolds(db, state, ops, store, origins, key);
    hide Delete;
    if key in store.entries { assert HoldsResult(db, state, ops, store.entries[key], origins.entries[key]); }
  }

  lemma SettingHolds<S, Q, W, V>(
    db: Database<S, Q, W, V>, state: S, ops: seq<Op<Q, W>>, store: Store<V>, origins: Store<nat>,
    maxSize: int, key: Key, e: Entry<V>, o: Entry<nat>)
    requires HoldsResults(db, state, ops, store, origins) && HoldsResult(db, state, ops, e, o)
    ensures HoldsResults(db, state, ops, Set(store, maxSize, key, e.value, e.expiresAt),
                         Set(origins, maxSize, key, o.value, o.expiresAt))
  {
    if store.keys != [] { DeletingHolds(db, state, ops, store, origins, store.keys[0]); }
    hide HoldsResult, Delete;
  }

  lemma LaterHolds<S, Q, W, V>(
    db: Database<S, Q, W, V>, state: S, ops: seq<Op<Q, W>>, op: Op<Q, W>, store: Store<V>, origins: Store<nat>)
    requires HoldsResults(db, state, ops, store, origins)
    ensures HoldsResults(db, state, ops + [op], store, origins)
  {
    forall key | key in store.entries ensures HoldsResult(db, state, ops + [op], store.entries[key], origins.entries[key]) {
      var o := origins.entries[key];
      assert HoldsResult(db, state, ops, store.entries[key], o);
      assert (ops + [op])[..o.value] == ops[..o.value];
    }
  }

  // ── Clean runs ──

  lemma CleanPrefix<Q, W>(cfg: Config<Q>, effect: Q -> bool, ops: seq<Op<Q, W>>, n: nat)
    requires n <= |ops| && forall k :: 0 <= k < n ==> CleanAt(cfg, effect, ops, k)
    ensures Clean(cfg, effect, ops[..n])
  {
    forall k | 0 <= k < n ensures CleanAt(cfg, effect, ops[..n], k) {
      assert CleanAt(cfg, effect, ops, k) && ops[..n][..k] == ops[..k];
    }
  }

  /** Without an effect the database stays as it is. */
  lemma {:induction false} QuietKeepsState<S(!new), Q(!new), W, V>(
    db: Database<S, Q, W, V>, effect: Q -> bool, state: S, ops: seq<Op<Q, W>>, j: nat, k: nat)
    requires Respects(db, effect) && j <= k <= |ops| && Quiet(effect, ops, j, k)
    ensures RunPlain(db, state, ops[..k]) == RunPlain(db, state, ops[..j])
    decreases k
  {
    if j < k {
      QuietKeepsState(db, effect, state, ops, j, k - 1);
      assert ops[..k][..k - 1] == ops[..k - 1] && !Effectful(effect, ops[k - 1]);
    }
  }

  /** A clean answer from the cache is the answer the database would give now, with no effect. */
  lemma CleanHitIsCurrent<S(!new), Q(!new), W, V>(
    db: Database<S, Q, W, V>, cfg: Config<Q>, effect: Q -> bool, state: S, ops: seq<Op<Q, W>>, op: Op<Q, W>, store: Store<V>)
    requires Respects(db, effect) && op.Ask? && op.cached && CleanAt(cfg, effect, ops + [op], |ops|)
    requires HoldsResults(db, state, ops, store, Origins(cfg, ops))
    ensures var hit := Get(store, cfg.keyOf(op.query), op.now).1;
      && hit.Some? == ServedBy(cfg, ops + [op], |ops|).Some?
      && (hit.Some? ==> db.query(RunPlain(db, state, ops), op.query) == (RunPlain(db, state, ops), hit.value))
  {
    var all := ops + [op];
    assert all[..|ops|] == ops && all[|ops|] == op;
    GettingHolds(db, state, ops, store, Origins(cfg, ops), cfg.keyOf(op.query), op.now);
    var j := ServedBy(cfg, all, |ops|);
    hide Get, HoldsResults, Origins;
    if j.Some? {
      assert all[j.value] == ops[j.value] && !Effectful(effect, all[j.value]);
      QuietKeepsState(db, effect, state, all, j.value, |ops|);
      assert all[..j.value] == ops[..j.value];
    }
  }

  /** In a clean run the database goes through the same states as without a cache, and the cache holds what it should. */
  lemma {:induction false} CleanRunFollowsPlain<S(!new), Q(!new), W, V>(
    db: Database<S, Q, W, V>, cfg: Config<Q>, effect: Q -> bool, state: S, ops: seq<Op<Q, W>>)
    requires Respects(db, effect) && Clean(cfg, effect, ops)
    ensures var c := Run(db, cfg, state, ops);
      c.state == RunPlain(db, state, ops) && HoldsResults(db, state, ops, c.store, Origins(cfg, ops))
  {
    if ops != [] {
      var before, op := ops[..|ops| - 1], ops[|ops| - 1];
      assert before + [op] == ops;
      CleanPrefix(cfg, effect, ops, |ops| - 1);
      CleanRunFollowsPlain(db, cfg, effect, state, before);
      StepFollowsPlain(db, cfg, effect, state, before, op);
    }
  }

  lemma StepFollowsPlain<S(!new), Q(!new), W, V>(
    db: Database<S, Q, W, V>, cfg: Config<Q>, effect: Q -> bool, state: S, ops: seq<Op<Q, W>>, op: Op<Q, W>)
    requires Respects(db, effect) && CleanAt(cfg, effect, ops + [op], |ops|)
    requires var c := Run(db, cfg, state, ops);
      c.state == RunPlain(db, state, ops) && HoldsResults(db, state, ops, c.store, Origins(cfg, ops))
    ensures var c', plain := Apply(db, cfg, Run(db, cfg, state, ops), op), ApplyPlain(db, RunPlain(db, state, ops), op);
      && c'.1 == plain.1 && c'.0.state == plain.0
      && HoldsResults(db, state, ops + [op], c'.0.store, OriginsStep(cfg, Origins(cfg, ops), op, |ops|))
  {
    var c: Client<S, V>, origins: Store<nat> := Run(db, cfg, state, ops), Origins(cfg, ops);
    hide Run, RunPlain, Origins, HoldsResult, Delete, Set, Without;
    LaterHolds(db, state, ops, op, c.store, origins);
    match op
    case Ask(query, cached, ttl, now) =>
      if cached {
        CleanHitIsCurrent(db, cfg, effect, state, ops, op, c.store);
        var key := cfg.keyOf(query);
        GettingHolds(db, state, ops + [op], c.store, origins, key, now);
        var until := ExpiresAt(cfg, ttl, now);
        var e: Entry<V>, o: Entry<nat> := Entry(db.query(RunPlain(db, state, ops), query).1, until), Entry(|ops|, until);
        var store: Store<V>, left: Store<nat> := Get(c.store, key, now).0, Get(origins, key, now).0;
        NewResultHolds(db, state, ops, op, until);
        assert HoldsResult(db, state, ops + [op], e, o);
        SettingHolds(db, state, ops + [op], store, left, cfg.maxSize, key, e, o);
      }
    case Write(_, _) =>
    case Invalidate(query) => DeletingHolds(db, state, ops + [op], c.store, origins, cfg.keyOf(query));
    case Clear =>
  }

  lemma NewResultHolds<S, Q, W, V>(db: Database<S, Q, W, V>, state: S, ops: seq<Op<Q, W>>, op: Op<Q, W>, expiresAt: int)
    requires op.Ask?
    ensures HoldsResult(db, state, ops + [op], Entry(db.query(RunPlain(db, state, ops), op.query).1, expiresAt),
                        Entry(|ops|, expiresAt))
  {
    assert (ops + [op])[..|ops|] == ops && (ops + [op])[|ops|] == op;
  }

  // ── When answers are current ──

  /**
   Where every answer from the cache is to the same statement with no effect since, and that
   is a matter of keys, times and operations alone, every database gives the answers, and
   goes through the states, that it would without a cache.
   */
  lemma CleanRunsAreCurrent<S(!new), Q(!new), W, V>(
    db: Database<S, Q, W, V>, cfg: Config<Q>, effect: Q -> bool, state: S, ops: seq<Op<Q, W>>)
    requires Respects(db, effect) && Clean(cfg, effect, ops)
    ensures AllCurrent(db, cfg, state, ops)
    ensures Run(db, cfg, state, ops).state == RunPlain(db, state, ops)
  {
    CleanRunFollowsPlain(db, cfg, effect, state, ops);
    forall k | 0 <= k < |ops| ensures CurrentAt(db, cfg, state, ops, k) {
      CleanPrefix(cfg, effect, ops, k);
      CleanRunFollowsPlain(db, cfg, effect, state, ops[..k]);
      assert CleanAt(cfg, effect, ops, k);
      assert ops[..k] + [ops[k]] == ops[..k + 1];
      CleanPrefix(cfg, effect, ops, k + 1);
      assert CleanAt(cfg, effect, ops[..k + 1], k);
      StepFollowsPlain(db, cfg, effect, state, ops[..k], ops[k]);
    }
  }

  /** A database that counts effects, and answers a statement with the count and the statement. */
  function Counting<Q, W>(effect: Q -> bool): Database<int, Q, W, (int, Q)> {
    Database((n: int, q: Q) => (if effect(q) then n + 1 else n, (n, q)), (n: int, w: W) => n + 1)
  }

  lemma {:induction false} CountGrows<Q(!new), W>(effect: Q -> bool, state: int, ops: seq<Op<Q, W>>, j: nat, k: nat)
    requires j <= k <= |ops|
    ensures RunPlain(Counting(effect), state, ops[..j]) <= RunPlain(Counting(effect), state, ops[..k])
    ensures !Quiet(effect, ops, j, k) ==>
      RunPlain(Counting(effect), state, ops[..j]) < RunPlain(Counting(effect), state, ops[..k])
    decreases k
  {
    if j < k {
      CountGrows(effect, state, ops, j, k - 1);
      assert ops[..k][..k - 1] == ops[..k - 1];
    }
  }

  /**
   Exactly the clean runs have only current answers: in every other run the counting database
   gives a cached answer that it would not give now. An effect is a write that was not
   acknowledged, or that did not clear the cache, or a statement given to `execute`.
   */
  lemma CurrentExactlyWhenClean<Q(!new), W>(cfg: Config<Q>, effect: Q -> bool, state: int, ops: seq<Op<Q, W>>)
    ensures AllCurrent(Counting(effect), cfg, state, ops) <==> Clean(cfg, effect, ops)
  {
    var db := Counting(effect);
    if Clean(cfg, effect, ops) {
      CleanRunsAreCurrent(db, cfg, effect, state, ops);
    } else {
      var dirty :| 0 <= dirty < |ops| && !CleanAt(cfg, effect, ops, dirty);
      var k := 0;
      while CleanAt(cfg, effect, ops, k)
        invariant k <= dirty
        invariant forall i :: 0 <= i < k ==> CleanAt(cfg, effect, ops, i)
        decreases dirty - k
      {
        k := k + 1;
      }
      CleanPrefix(cfg, effect, ops, k);
      CleanRunFollowsPlain(db, cfg, effect, state, ops[..k]);
      DirtyHitShows(cfg, effect, state, ops, k);
    }
  }

  lemma DirtyHitShows<Q(!new), W>(cfg: Config<Q>, effect: Q -> bool, state: int, ops: seq<Op<Q, W>>, k: nat)
    requires k < |ops| && !CleanAt(cfg, effect, ops, k)
    requires var c := Run(Counting(effect), cfg, state, ops[..k]);
      c.state == RunPlain(Counting(effect), state, ops[..k])
      && HoldsResults(Counting(effect), state, ops[..k], c.store, Origins(cfg, ops[..k]))
    ensures !CurrentAt(Counting(effect), cfg, state, ops, k)
  {
    var db: Database<int, Q, W, (int, Q)> := Counting(effect);
    var c := Run(db, cfg, state, ops[..k]);
    var op := ops[k];
    GettingHolds(db, state, ops[..k], c.store, Origins(cfg, ops[..k]), cfg.keyOf(op.query), op.now);
    hide Run, Origins, HoldsResults, Get, RunPlain;
    var j := ServedBy(cfg, ops, k).value;
    assert ops[..k][..j] == ops[..j] && ops[..k][j] == ops[j];
    CountGrows(effect, state, ops, j, k);
  }

  // ── What a client can rely on ──

  /** The operations whose results are in the cache: each under its own key, with nothing effective since. */
  ghost predicate OriginsQuiet<Q, W>(cfg: Config<Q>, effect: Q -> bool, ops: seq<Op<Q, W>>, store: Store<nat>) {
    forall key :: key in store.entries ==>
      var j := store.entries[key].value;
      j < |ops| && ops[j].Ask? && cfg.keyOf(ops[j].query) == key && Quiet(effect, ops, j, |ops|)
  }

  /** What the contract of the cache asks of its user: writes go through `run`, and fail only before they take effect. */
  predicate WritesThroughRun<Q, W>(cfg: Config<Q>, effect: Q -> bool, op: Op<Q, W>) {
    (op.Ask? ==> !effect(op.query)) && (op.Write? ==> cfg.clearOnWrite && !op.outcome.FailedAfter?)
  }

  lemma QuietStep<Q, W>(cfg: Config<Q>, effect: Q -> bool, ops: seq<Op<Q, W>>, op: Op<Q, W>, store: Store<nat>)
    requires OriginsQuiet(cfg, effect, ops, store) && WritesThroughRun(cfg, effect, op)
    ensures OriginsQuiet(cfg, effect, ops + [op], OriginsStep(cfg, store, op, |ops|))
  {
    hide Without;
    var all := ops + [op];
    if !Effectful(effect, op) {
      forall key | key in store.entries ensures var j := store.entries[key].value; j < |ops| && Quiet(effect, all, j, |all|) {
        var j := store.entries[key].value;
        assert Quiet(effect, ops, j, |ops|);
        assert forall i :: j <= i < |ops| ==> all[i] == ops[i];
      }
    }
  }

  lemma {:induction false} OriginsAreQuiet<Q, W>(cfg: Config<Q>, effect: Q -> bool, ops: seq<Op<Q, W>>)
    requires forall k :: 0 <= k < |ops| ==> WritesThroughRun(cfg, effect, ops[k])
    ensures OriginsQuiet(cfg, effect, ops, Origins(cfg, ops))
  {
    if ops != [] {
      var before, last := ops[..|ops| - 1], ops[|ops| - 1];
      assert before + [last] == ops;
      OriginsAreQuiet(cfg, effect, before);
      QuietStep(cfg, effect, before, last, Origins(cfg, before));
    }
  }

  /**
   With `clearOnWrite`, keys that do not collide, and every change of the database made by a
   `run` that fails, if it fails, before it takes effect, every answer is the uncached one,
   whatever has expired or been evicted.
   */
  lemma CachedAnswersAreCurrent<S(!new), Q(!new), W, V>(
    db: Database<S, Q, W, V>, cfg: Config<Q>, effect: Q -> bool, state: S, ops: seq<Op<Q, W>>)
    requires Respects(db, effect)
    requires forall p, q :: cfg.keyOf(p) == cfg.keyOf(q) ==> p == q
    requires forall k :: 0 <= k < |ops| ==> WritesThroughRun(cfg, effect, ops[k])
    ensures AllCurrent(db, cfg, state, ops)
  {
    forall k | 0 <= k < |ops| ensures CleanAt(cfg, effect, ops, k) {
      OriginsAreQuiet(cfg, effect, ops[..k]);
      var j := ServedBy(cfg, ops, k);
      if j.Some? {
        assert ops[..k][j.value] == ops[j.value] && Quiet(effect, ops[..k], j.value, k);
        assert forall i :: j.value <= i < k ==> ops[..k][i] == ops[i];
      }
    }
    CleanRunsAreCurrent(db, cfg, effect, state, ops);
  }

  // ── Stale answers ──

  datatype CellQuery = ReadCell | SetCell(value: int)

  /** A one-cell database: a statement reads the cell, or replaces it and returns the new value; a write replaces it. */
  function OneCell(): Database<int, CellQuery, int, int> {
    Database((state: int, q: CellQuery) => if q.ReadCell? then (state, state) else (q.value, q.value),
             (_: int, value: int) => value)
  }

  function OneCellConfig(): Config<CellQuery> {
    Config((q: CellQuery) => if q.ReadCell? then Key("SELECT v FROM t") else Key("UPDATE t SET v = ? RETURNING v"),
           60000, 100, true)
  }

  /** After the first read, and an operation that does not touch the cache, the first answer is served again. */
  lemma ReadAgain(op: Op<CellQuery, int>)
    requires op == Op.Write(2, FailedAfter) || op == Op.Ask(SetCell(2), false, None, 0)
    ensures var db, cfg := OneCell(), OneCellConfig();
      var ops := [Op.Ask(ReadCell, true, None, 0), op];
      && Apply(db, cfg, Run(db, cfg, 1, ops), Op.Ask(ReadCell, true, None, 1)).1 == Some(1)
      && ApplyPlain(db, RunPlain(db, 1, ops), Op.Ask(ReadCell, true, None, 1)).1 == Some(2)
  {
    var db, cfg := OneCell(), OneCellConfig();
    var ask: Op<CellQuery, int> := Op.Ask(ReadCell, true, None, 0);
    assert [ask, op][..1] == [ask] && [ask][..0] == [];
    assert Run(db, cfg, 1, []) == Client(1, Empty());
    assert Run(db, cfg, 1, [ask]).store.entries[Key("SELECT v FROM t")] == Entry(1, 60000);
    assert RunPlain(db, 1, [ask]) == 1;
  }

  /** A write that takes effect and is reported as failed leaves the old answer in the cache. */
  lemma LostAcknowledgementIsStale()
    ensures !AllCurrent(OneCell(), OneCellConfig(), 1,
      [Op.Ask(ReadCell, true, None, 0), Op.Write(2, FailedAfter), Op.Ask(ReadCell, true, None, 1)])
  {
    ReadAgain(Op.Write(2, FailedAfter));
    StaleThird(Op.Write(2, FailedAfter));
  }

  /** So does a statement that writes when it is given to `execute`, although `clearOnWrite` is on and nothing fails. */
  lemma WritingStatementIsStale()
    ensures !AllCurrent(OneCell(), OneCellConfig(), 1,
      [Op.Ask(ReadCell, true, None, 0), Op.Ask(SetCell(2), false, None, 0), Op.Ask(ReadCell, true, None, 1)])
  {
    ReadAgain(Op.Ask(SetCell(2), false, None, 0));
    StaleThird(Op.Ask(SetCell(2), false, None, 0));
  }

  lemma StaleThird(op: Op<CellQuery, int>)
    requires op == Op.Write(2, FailedAfter) || op == Op.Ask(SetCell(2), false, None, 0)
    ensures var first := Op<CellQuery, int>.Ask(ReadCell, true, None, 0);
            var third := Op<CellQuery, int>.Ask(ReadCell, true, None, 1);
      !AllCurrent(OneCell(), OneCellConfig(), 1, [first, op, third])
  {
    var first, third := Op<CellQuery, int>.Ask(ReadCell, true, None, 0), Op<CellQuery, int>.Ask(ReadCell, true, None, 1);
    ReadAgain(op);
    var ops := [first, op, third];
    assert ops[..2] == [first, op];
    hide Run, RunPlain, Apply, ApplyPlain;
    assert !CurrentAt(OneCell(), OneCellConfig(), 1, ops, 2);
  }

  /** A writing statement that is itself cached does not run a second time. */
  lemma CachedWriteDoesNotRun()
    ensures var db, cfg := OneCell(), OneCellConfig();
      var set2 := Op<CellQuery, int>.Ask(SetCell(2), true, None, 0);
      var set3 := Op<CellQuery, int>.Ask(SetCell(3), false, None, 0);
      Run(db, cfg, 1, [set2, set3, set2]).state == 3 && RunPlain(db, 1, [set2, set3, set2]) == 2
  {
    var db, cfg := OneCell(), OneCellConfig();
    var set2 := Op<CellQuery, int>.Ask(SetCell(2), true, None, 0);
    var set3 := Op<CellQuery, int>.Ask(SetCell(3), false, None, 0);
    var ops := [set2, set3, set2];
    assert ops[..2] == [set2, set3] && ops[..2][..1] == [set2] && [set2][..0] == [];
    assert Run(db, cfg, 1, []) == Client(1, Empty()) && RunPlain(db, 1, []) == 1;
    assert Run(db, cfg, 1, [set2]).store.entries[Key("UPDATE t SET v = ? RETURNING v")] == Entry(2, 60000);
    assert Run(db, cfg, 1, [set2, set3]).state == 3;
    assert RunPlain(db, 1, [set2]) == 2;
  }
}
