/**
 How old a cached answer can be. Any number of cached calls are under way at once; the
 pieces of each between two awaits are one step. The persistent cache feeds the
 in-memory one and starts its clock anew, but never the other way round.
 */
module CacheAges {
  import opened Lists
  import opened NativeTypes
  import opened QueryCaches

  /** A result and when it was fetched over the network. */
  datatype Sample<V> = Sample(value: V, at: int)

  /** Where a call is. `since` is when its last step was. */
  datatype Phase<V> =
    | AskingL2
    | ReadL2(found: Option<Entry<Sample<V>>>)
    | Warming(sample: Sample<V>, since: int)
    | Fetching
    | Fetched(sample: Sample<V>)
    | Putting(sample: Sample<V>, entry: Entry<Sample<V>>, since: int)
    | Answered

  datatype Call<V> = Call(key: Key, persist: bool, ttl: Option<int>, phase: Phase<V>)

  datatype Answer<V> = Answer(key: Key, value: V, at: int, fromCache: bool, fetchedAt: int)

  /** Every reply there has been from the network. */
  datatype Fetch<V> = Fetch(key: Key, value: V, at: int)

  datatype System<V> = System(
    l1: Store<Sample<V>>, l2: map<Key, Entry<Sample<V>>>, calls: map<nat, Call<V>>,
    fetches: seq<Fetch<V>>, answers: seq<Answer<V>>)

  datatype Event<V> =
    | Begin(id: nat, key: Key, persist: bool, ttl: Option<int>, now: int)
    | Read(id: nat, now: int)
    | Check(id: nat, now: int)
    | Warm(id: nat, now: int)
    | Reply(id: nat, value: V, now: int)
    | Stamp(id: nat, now: int)
    | Land(id: nat, now: int)
    | Fill(id: nat, now: int)
    | ForgetL1(key: Key, now: int)
    | ClearL1(now: int)
    | ForgetL2(gone: set<Key>, now: int)

  /** Times to live: the defaults, the largest ones in use, and how long a call may rest between two steps of its own. */
  datatype Config = Config(ttl1: int, ttl2: int, maxSize: int, most1: int, most2: int, lag: int)

  function OrElse(ttl: Option<int>, otherwise: int): int {
    if ttl.Some? then ttl.value else otherwise
  }

  predicate ConfigOk(cfg: Config) {
    0 <= cfg.most1 && 0 <= cfg.most2 && 0 <= cfg.lag
  }

  predicate TtlsOk(cfg: Config, ttl: Option<int>) {
    OrElse(ttl, cfg.ttl1) <= cfg.most1 && OrElse(ttl, cfg.ttl2) <= cfg.most2
  }

  /** An event is possible: its call is at that point, and has not rested for too long. */
  predicate Can<V>(cfg: Config, s: System<V>, e: Event<V>) {
    match e
    case Begin(id, key, persist, ttl, _) => id !in s.calls && TtlsOk(cfg, ttl)
    case Read(id, _) => id in s.calls && s.calls[id].phase == AskingL2
    case Check(id, _) => id in s.calls && s.calls[id].phase.ReadL2?
    case Warm(id, now) => id in s.calls && s.calls[id].phase.Warming? && now <= s.calls[id].phase.since + cfg.lag
    case Reply(id, _, _) => id in s.calls && s.calls[id].phase == Fetching
    case Stamp(id, now) =>
      id in s.calls && s.calls[id].persist && s.calls[id].phase.Fetched? && now <= s.calls[id].phase.sample.at + cfg.lag
    case Land(id, _) => id in s.calls && s.calls[id].phase.Putting?
    case Fill(id, now) =>
      && id in s.calls
      && var p := s.calls[id].phase;
        if s.calls[id].persist then p.Putting? && now <= p.since + cfg.lag
        else p.Fetched? && now <= p.sample.at + cfg.lag
    case _ => true
  }

  function At<V>(s: System<V>, id: nat, phase: Phase<V>): System<V>
    requires id in s.calls
  {
    s.(calls := s.calls[id := s.calls[id].(phase := phase)])
  }

  function Respond<V>(s: System<V>, id: nat, sample: Sample<V>, now: int, fromCache: bool): System<V>
    requires id in s.calls
  {
    At(s, id, Answered).(answers := s.answers + [Answer(s.calls[id].key, sample.value, now, fromCache, sample.at)])
  }

  function SetL1<V>(cfg: Config, s: System<V>, c: Call<V>, sample: Sample<V>, now: int): System<V> {
    s.(l1 := Set(s.l1, cfg.maxSize, c.key, sample, now + OrElse(c.ttl, cfg.ttl1)))
  }

  function Step<V>(cfg: Config, s: System<V>, e: Event<V>): System<V>
    requires Can(cfg, s, e)
  {
    match e
    case Begin(id, key, persist, ttl, now) =>
      var (l1, hit) := Get(s.l1, key, now);
      var begun := s.(l1 := l1, calls := s.calls[id := Call(key, persist, ttl, if persist then AskingL2 else Fetching)]);
      if hit.Some? then Respond(begun, id, hit.value, now, true) else begun
    case Read(id, _) =>
      var key := s.calls[id].key;
      At(s, id, ReadL2(if key in s.l2 then Some(s.l2[key]) else None))
    case Check(id, now) =>
      var entry := s.calls[id].phase.found;
      if entry.None? then At(s, id, Fetching)
      else if now > entry.value.expiresAt then At(s, id, Fetching).(l2 := s.l2 - {s.calls[id].key})
      else At(s, id, Warming(entry.value.value, now))
    case Warm(id, now) =>
      var sample := s.calls[id].phase.sample;
      Respond(SetL1(cfg, s, s.calls[id], sample, now), id, sample, now, true)
    case Reply(id, value, now) =>
      At(s, id, Fetched(Sample(value, now))).(fetches := s.fetches + [Fetch(s.calls[id].key, value, now)])
    case Stamp(id, now) =>
      var sample := s.calls[id].phase.sample;
      At(s, id, Putting(sample, Entry(sample, now + OrElse(s.calls[id].ttl, cfg.ttl2)), now))
    case Land(id, _) =>
      s.(l2 := s.l2[s.calls[id].key := s.calls[id].phase.entry])
    case Fill(id, now) =>
      var sample := s.calls[id].phase.sample;
      Respond(SetL1(cfg, s, s.calls[id], sample, now), id, sample, now, false)
    case ForgetL1(key, _) => s.(l1 := Delete(s.l1, key))
    case ClearL1(_) => s.(l1 := Empty())
    case ForgetL2(gone, _) => s.(l2 := s.l2 - gone)
  }

  // ── What the steps do ──

  /** The entry may be served now. */
  predicate Fresh<V>(e: Entry<V>, now: int) {
    now <= e.expiresAt
  }

  /**
   A call whose key is in memory and in its time is answered at once, as from the cache; any
   other goes on to the persistent level if it may use it, and else to the network.
   */
  lemma BeginLooksInMemory<V>(cfg: Config, s: System<V>, e: Event<V>)
    requires Can(cfg, s, e) && e.Begin?
    ensures var s' := Step(cfg, s, e);
      && s'.fetches == s.fetches && s'.l2 == s.l2 && e.id in s'.calls
      && s'.calls[e.id].key == e.key && s'.calls[e.id].persist == e.persist && s'.calls[e.id].ttl == e.ttl
      && if e.key in s.l1.entries && Fresh(s.l1.entries[e.key], e.now)
         then
           var sample := s.l1.entries[e.key].value;
           && s'.calls[e.id].phase == Answered && s'.l1 == s.l1
           && s'.answers == s.answers + [Answer(e.key, sample.value, e.now, true, sample.at)]
         else
           && s'.calls[e.id].phase == (if e.persist then AskingL2 else Fetching)
           && s'.answers == s.answers && e.key !in s'.l1.entries
  {
    hide Without;
  }

  /** The persistent level is used exactly while its entry is in its time; one that is not is deleted. */
  lemma CheckLooksAtTheTime<V>(cfg: Config, s: System<V>, e: Event<V>)
    requires Can(cfg, s, e) && e.Check?
    ensures var s', found := Step(cfg, s, e), s.calls[e.id].phase.found;
      && s'.answers == s.answers && s'.fetches == s.fetches && s'.l1 == s.l1 && e.id in s'.calls
      && (found.Some? && Fresh(found.value, e.now) ==>
            s'.calls[e.id].phase == Warming(found.value.value, e.now) && s'.l2 == s.l2)
      && (!(found.Some? && Fresh(found.value, e.now)) ==> s'.calls[e.id].phase == Fetching)
      && (found.Some? && !Fresh(found.value, e.now) ==> s'.l2 == s.l2 - {s.calls[e.id].key})
      && (found.None? ==> s'.l2 == s.l2)
  {
  }

  /**
   A call that ends leaves its result in memory for the time to live it was given, or the
   default, and says whether it came from a cache: it did unless it was fetched by this call.
   */
  lemma EndingFillsMemory<V>(cfg: Config, s: System<V>, e: Event<V>)
    requires Can(cfg, s, e) && (e.Warm? || e.Fill?)
    ensures var s', c := Step(cfg, s, e), s.calls[e.id];
      && c.key in s'.l1.entries && e.id in s'.calls && s'.calls[e.id].phase == Answered
      && s'.l1.entries[c.key] ==
           Entry(c.phase.sample, match c.ttl case Some(ttl) => e.now + ttl case None => e.now + cfg.ttl1)
      && s'.answers ==
           s.answers + [Answer(c.key, c.phase.sample.value, e.now, e.Warm?, c.phase.sample.at)]
      && s'.l2 == s.l2 && s'.fetches == s.fetches
  {
    hide MadeRoom;
  }

  /**
   The persistent level is dated when the result is to be put there, with the time to live of
   the call or its own default.
   */
  lemma PersistingIsDated<V>(cfg: Config, s: System<V>, e: Event<V>)
    requires Can(cfg, s, e)
    ensures var s' := Step(cfg, s, e);
      && (e.Stamp? ==>
            var c := s.calls[e.id];
            && e.id in s'.calls && s'.l1 == s.l1 && s'.l2 == s.l2 && s'.answers == s.answers
            && var until := match c.ttl case Some(ttl) => e.now + ttl case None => e.now + cfg.ttl2;
               s'.calls[e.id].phase == Putting(c.phase.sample, Entry(c.phase.sample, until), e.now))
      && (e.Land? ==>
            var c := s.calls[e.id];
            && c.key in s'.l2 && s'.l2[c.key] == c.phase.entry && s'.l1 == s.l1 && s'.answers == s.answers
            && forall k :: k != c.key ==> (k in s'.l2 <==> k in s.l2) && (k in s.l2 ==> s'.l2[k] == s.l2[k]))
  {
  }

  /**
   What is forgotten is gone, from its own level only: dropping a group from the persistent
   level leaves memory as it is.
   */
  lemma ForgettingIsPerLevel<V>(cfg: Config, s: System<V>, e: Event<V>)
    requires Can(cfg, s, e)
    ensures var s' := Step(cfg, s, e);
      && (e.ForgetL1? ==> s'.l2 == s.l2 && forall k :: k in s'.l1.entries <==> k in s.l1.entries && k != e.key)
      && (e.ClearL1? ==> s'.l2 == s.l2 && s'.l1.entries == map[])
      && (e.ForgetL2? ==> s'.l1 == s.l1 && forall k :: k in s'.l2 <==> k in s.l2 && k !in e.gone)
      && (e.ForgetL1? || e.ClearL1? || e.ForgetL2? ==>
            s'.calls == s.calls && s'.answers == s.answers && s'.fetches == s.fetches)
  {
    hide Without, Set;
  }

  // ── Runs ──

  function Start<V>(): System<V> {
    System(Empty(), map[], map[], [], [])
  }

  function Clock<V>(events: seq<Event<V>>): int {
    if events == [] then 0 else events[|events| - 1].now
  }

  /** A run: every event is possible when it happens, and time does not go back. */
  ghost predicate Runs<V>(cfg: Config, events: seq<Event<V>>)
    decreases |events|, 0
  {
    events == [] ||
    var before, last := events[..|events| - 1], events[|events| - 1];
    && Runs(cfg, before)
    && Can(cfg, After(cfg, before), last)
    && (before != [] ==> Clock(before) <= last.now)
  }

  ghost function After<V>(cfg: Config, events: seq<Event<V>>): System<V>
    requires Runs(cfg, events)
    decreases |events|, 1
  {
    if events == [] then Start() else Step(cfg, After(cfg, events[..|events| - 1]), events[|events| - 1])
  }

  // ── Ages ──

  ghost predicate WasFetched<V>(fetches: seq<Fetch<V>>, key: Key, sample: Sample<V>) {
    exists i :: 0 <= i < |fetches| && fetches[i] == Fetch(key, sample.value, sample.at)
  }

  function Horizon(cfg: Config): int {
    cfg.most1 + cfg.most2 + 2 * cfg.lag
  }

  ghost predicate L1Ok<V>(cfg: Config, s: System<V>) {
    forall k :: k in s.l1.entries ==>
      var e := s.l1.entries[k];
      WasFetched(s.fetches, k, e.value) && e.expiresAt <= e.value.at + Horizon(cfg)
  }

  ghost predicate L2EntryOk<V>(cfg: Config, fetches: seq<Fetch<V>>, key: Key, e: Entry<Sample<V>>) {
    WasFetched(fetches, key, e.value) && e.expiresAt <= e.value.at + cfg.most2 + cfg.lag
  }

  ghost predicate L2Ok<V>(cfg: Config, s: System<V>) {
    forall k :: k in s.l2 ==> L2EntryOk(cfg, s.fetches, k, s.l2[k])
  }

  ghost predicate PhaseOk<V>(cfg: Config, fetches: seq<Fetch<V>>, c: Call<V>) {
    match c.phase
    case ReadL2(found) => found.Some? ==> L2EntryOk(cfg, fetches, c.key, found.value)
    case Warming(sample, since) => WasFetched(fetches, c.key, sample) && since <= sample.at + cfg.most2 + cfg.lag
    case Fetched(sample) => WasFetched(fetches, c.key, sample)
    case Putting(sample, entry, since) =>
      WasFetched(fetches, c.key, sample) && L2EntryOk(cfg, fetches, c.key, entry) && since <= sample.at + cfg.lag
    case _ => true
  }

  ghost predicate CallsOk<V>(cfg: Config, s: System<V>) {
    forall id :: id in s.calls ==> TtlsOk(cfg, s.calls[id].ttl) && PhaseOk(cfg, s.fetches, s.calls[id])
  }

  /** The answer is a fetch of the same key, and no older than the horizon. */
  ghost predicate AnswerOk<V>(cfg: Config, fetches: seq<Fetch<V>>, a: Answer<V>) {
    && WasFetched(fetches, a.key, Sample(a.value, a.fetchedAt))
    && a.at - Horizon(cfg) <= a.fetchedAt
    && (!a.fromCache ==> a.at - 2 * cfg.lag <= a.fetchedAt)
  }

  ghost predicate AnswersOk<V>(cfg: Config, s: System<V>) {
    forall i :: 0 <= i < |s.answers| ==> AnswerOk(cfg, s.fetches, s.answers[i])
  }

  ghost predicate Inv<V>(cfg: Config, s: System<V>) {
    L1Ok(cfg, s) && L2Ok(cfg, s) && CallsOk(cfg, s) && AnswersOk(cfg, s)
  }

  lemma FetchesGrow<V>(fetches: seq<Fetch<V>>, more: Fetch<V>, key: Key, sample: Sample<V>)
    requires WasFetched(fetches, key, sample) || more == Fetch(key, sample.value, sample.at)
    ensures WasFetched(fetches + [more], key, sample)
  {
    var all := fetches + [more];
    if WasFetched(fetches, key, sample) {
      var i :| 0 <= i < |fetches| && fetches[i] == Fetch(key, sample.value, sample.at);
      assert all[i] == fetches[i];
    } else {
      assert all[|fetches|] == more;
    }
  }

  lemma ReplyKeeps<V>(cfg: Config, s: System<V>, id: nat, value: V, now: int)
    requires Inv(cfg, s) && Can(cfg, s, Reply(id, value, now))
    ensures Inv(cfg, Step(cfg, s, Reply(id, value, now)))
  {
    hide WasFetched;
    var key := s.calls[id].key;
    forall k: Key, sample: Sample<V>
      ensures WasFetched(s.fetches, k, sample) ==> WasFetched(s.fetches + [Fetch(key, value, now)], k, sample)
    {
      if WasFetched(s.fetches, k, sample) { FetchesGrow(s.fetches, Fetch(key, value, now), k, sample); }
    }
    FetchesGrow(s.fetches, Fetch(key, value, now), key, Sample(value, now));
  }

  lemma L1SetKeeps<V>(cfg: Config, s: System<V>, c: Call<V>, sample: Sample<V>, now: int)
    requires ConfigOk(cfg) && Inv(cfg, s) && TtlsOk(cfg, c.ttl) && WasFetched(s.fetches, c.key, sample)
    requires now <= sample.at + cfg.most2 + 2 * cfg.lag
    ensures Inv(cfg, SetL1(cfg, s, c, sample, now))
  {
    hide WasFetched, Set;
    var s' := SetL1(cfg, s, c, sample, now);
    forall k | k in s'.l1.entries
      ensures var e := s'.l1.entries[k]; WasFetched(s.fetches, k, e.value) && e.expiresAt <= e.value.at + Horizon(cfg)
    {
      SetHolds(s.l1, cfg.maxSize, c.key, sample, now + OrElse(c.ttl, cfg.ttl1), k);
    }
  }

  lemma RespondKeeps<V>(cfg: Config, s: System<V>, id: nat, sample: Sample<V>, now: int, fromCache: bool)
    requires Inv(cfg, s) && id in s.calls
    requires AnswerOk(cfg, s.fetches, Answer(s.calls[id].key, sample.value, now, fromCache, sample.at))
    ensures Inv(cfg, Respond(s, id, sample, now, fromCache))
  {
    hide WasFetched;
  }

  lemma BeginKeeps<V>(cfg: Config, s: System<V>, id: nat, key: Key, persist: bool, ttl: Option<int>, now: int)
    requires ConfigOk(cfg) && Inv(cfg, s) && Can(cfg, s, Event.Begin(id, key, persist, ttl, now))
    ensures Inv(cfg, Step(cfg, s, Event.Begin(id, key, persist, ttl, now)))
  {
    hide WasFetched, Without;
    var (l1, hit) := Get(s.l1, key, now);
    var begun := s.(l1 := l1, calls := s.calls[id := Call(key, persist, ttl, if persist then AskingL2 else Fetching)]);
    assert L1Ok(cfg, begun) && CallsOk(cfg, begun);
    if hit.Some? {
      assert WasFetched(s.fetches, key, s.l1.entries[key].value);
      RespondKeeps(cfg, begun, id, hit.value, now, true);
    }
  }

  lemma MoveKeeps<V>(cfg: Config, s: System<V>, id: nat, phase: Phase<V>)
    requires Inv(cfg, s) && id in s.calls && PhaseOk(cfg, s.fetches, s.calls[id].(phase := phase))
    ensures Inv(cfg, At(s, id, phase))
  {
    hide WasFetched;
  }

  lemma StepKeeps<V>(cfg: Config, s: System<V>, e: Event<V>)
    requires ConfigOk(cfg) && Inv(cfg, s) && Can(cfg, s, e)
    ensures Inv(cfg, Step(cfg, s, e))
  {
    hide WasFetched, Set, Without;
    match e
    case Begin(id, key, persist, ttl, now) => BeginKeeps(cfg, s, id, key, persist, ttl, now);
    case Reply(id, value, now) => ReplyKeeps(cfg, s, id, value, now);
    case Read(id, now) =>
      MoveKeeps(cfg, s, id, ReadL2(if s.calls[id].key in s.l2 then Some(s.l2[s.calls[id].key]) else None));
    case Check(id, now) =>
      MoveKeeps(cfg, s, id, Fetching);
      var found := s.calls[id].phase.found;
      if found.Some? && now <= found.value.expiresAt { MoveKeeps(cfg, s, id, Warming(found.value.value, now)); }
    case Warm(id, now) =>
      var sample := s.calls[id].phase.sample;
      L1SetKeeps(cfg, s, s.calls[id], sample, now);
      RespondKeeps(cfg, SetL1(cfg, s, s.calls[id], sample, now), id, sample, now, true);
    case Stamp(id, now) =>
      var sample := s.calls[id].phase.sample;
      MoveKeeps(cfg, s, id, Putting(sample, Entry(sample, now + OrElse(s.calls[id].ttl, cfg.ttl2)), now));
    case Fill(id, now) =>
      var sample := s.calls[id].phase.sample;
      L1SetKeeps(cfg, s, s.calls[id], sample, now);
      RespondKeeps(cfg, SetL1(cfg, s, s.calls[id], sample, now), id, sample, now, false);
    case Land(id, now) =>
    case ForgetL1(key, now) =>
    case ClearL1(now) =>
    case ForgetL2(gone, now) =>
  }

  lemma {:induction false} RunKeeps<V>(cfg: Config, events: seq<Event<V>>)
    requires ConfigOk(cfg) && Runs(cfg, events)
    ensures Inv(cfg, After(cfg, events))
  {
    hide Step, Can, Inv;
    if events == [] {
      StartOk<V>(cfg);
    } else {
      RunKeeps(cfg, events[..|events| - 1]);
      StepKeeps(cfg, After(cfg, events[..|events| - 1]), events[|events| - 1]);
    }
  }

  lemma StartOk<V>(cfg: Config)
    ensures Inv(cfg, Start<V>())
  {
  }

  /**
   Every answer out of the caches at time t is what a fetch for the same key brought, no
   earlier than t less the largest two times to live, and less what calls may rest on the
   way; with calls that rest at no point, the two times to live alone.
   */
  lemma CachedAnswersAreYoung<V>(cfg: Config, events: seq<Event<V>>, i: nat)
    requires ConfigOk(cfg) && Runs(cfg, events) && i < |After(cfg, events).answers|
    ensures var s := After(cfg, events);
      var a := s.answers[i];
      exists f :: 0 <= f < |s.fetches| && s.fetches[f].key == a.key && s.fetches[f].value == a.value
                  && s.fetches[f].at >= a.at - (cfg.most1 + cfg.most2 + 2 * cfg.lag)
  {
    RunKeeps(cfg, events);
    var s := After(cfg, events);
    hide After, Runs;
    assert AnswerOk(cfg, s.fetches, s.answers[i]);
  }

  // ── The bound is met ──

  lemma Extends<V>(cfg: Config, events: seq<Event<V>>, e: Event<V>)
    requires Runs(cfg, events) && Can(cfg, After(cfg, events), e) && (events != [] ==> Clock(events) <= e.now)
    ensures Runs(cfg, events + [e]) && After(cfg, events + [e]) == Step(cfg, After(cfg, events), e)
    ensures Clock(events + [e]) == e.now
  {
    assert (events + [e])[..|events|] == events;
  }

  lemma NothingYet<V>(cfg: Config)
    ensures Runs<V>(cfg, []) && After<V>(cfg, []) == Start()
  {
  }

  const FIVE_AND_ONE := Config(1, 5, 10, 1, 5, 0)

  /** A call that fetches and fills both levels at time 0. */
  lemma FilledAtZero(key: Key) returns (events: seq<Event<int>>)
    ensures Runs(FIVE_AND_ONE, events) && Clock(events) == 0
    ensures var s := After(FIVE_AND_ONE, events);
      && s.l1.entries == map[key := Entry(Sample(7, 0), 1)] && s.l1.keys == [key]
      && s.l2 == map[key := Entry(Sample(7, 0), 5)] && s.calls.Keys == {0}
      && s.fetches == [Fetch(key, 7, 0)] && |s.answers| == 1
  {
    events := [];
    NothingYet<int>(FIVE_AND_ONE);
    hide Runs, After;
    Extends(FIVE_AND_ONE, events, Event.Begin(0, key, true, None, 0));
    events := events + [Event.Begin(0, key, true, None, 0)];
    Extends(FIVE_AND_ONE, events, Event.Read(0, 0));
    events := events + [Event.Read(0, 0)];
    Extends(FIVE_AND_ONE, events, Event.Check(0, 0));
    events := events + [Event.Check(0, 0)];
    Extends(FIVE_AND_ONE, events, Event.Reply(0, 7, 0));
    events := events + [Event.Reply(0, 7, 0)];
    Extends(FIVE_AND_ONE, events, Event.Stamp(0, 0));
    events := events + [Event.Stamp(0, 0)];
    Extends(FIVE_AND_ONE, events, Event.Land(0, 0));
    events := events + [Event.Land(0, 0)];
    Extends(FIVE_AND_ONE, events, Event.Fill(0, 0));
    events := events + [Event.Fill(0, 0)];
  }

  /** No smaller bound will do: a persisted answer served at its expiry starts the memory cache's clock anew. */
  lemma BoundIsMet(key: Key) returns (events: seq<Event<int>>)
    ensures Runs(FIVE_AND_ONE, events)
    ensures var s := After(FIVE_AND_ONE, events);
      |s.answers| == 3 && s.answers[2] == Answer(key, 7, 6, true, 0) && s.fetches == [Fetch(key, 7, 0)]
  {
    events := FilledAtZero(key);
    hide Runs, After;
    Extends(FIVE_AND_ONE, events, Event.Begin(1, key, true, None, 5));
    events := events + [Event.Begin(1, key, true, None, 5)];
    Extends(FIVE_AND_ONE, events, Event.Read(1, 5));
    events := events + [Event.Read(1, 5)];
    Extends(FIVE_AND_ONE, events, Event.Check(1, 5));
    events := events + [Event.Check(1, 5)];
    Extends(FIVE_AND_ONE, events, Event.Warm(1, 5));
    events := events + [Event.Warm(1, 5)];
    Extends(FIVE_AND_ONE, events, Event.Begin(2, key, true, None, 6));
    events := events + [Event.Begin(2, key, true, None, 6)];
  }
}
