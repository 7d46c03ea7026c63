/**
 The in-memory blacklist: strikes with decay, exponential blocks, and a
 least-recently-used bound. Times are nanoseconds since the zero time, so the zero
 time is 0 and a clock shows a positive time.
 */
module Blacklist {
  import opened Lists
  import opened NativeTypes

  const ZERO_TIME := 0

  /** A remote address, without its port. */
  datatype Address = Address(ip: string)

  datatype Config = Config(
    freeStrikes: int, initialBlock: int, multiplier: real, maxBlock: int, strikeResetAfter: int, maxTrackedAddrs: int)

  datatype Entry = Entry(strikes: nat, blockedUntil: int, lastStrike: int)

  const NEW_ENTRY := Entry(0, ZERO_TIME, ZERO_TIME)

  // ── Durations ──

  function Pow(x: real, n: nat): real {
    if n == 0 then 1.0 else x * Pow(x, n - 1)
  }

  /** Conversion to an integer drops the fraction. */
  function Trunc(x: real): int {
    if x >= 0.0 then x.Floor else -(-x).Floor
  }

  /** base * multiplier^exp, before it is cut off. */
  function Scaled(base: int, multiplier: real, exp: nat): real {
    base as real * Pow(multiplier, exp)
  }

  function ScaledDuration(base: int, multiplier: real, exp: int, max: int): int {
    if exp <= 0 then
      if base > max then max else base
    else
      var scaled := Scaled(base, multiplier, exp);
      if scaled > max as real then max else Trunc(scaled)
  }

  // ── State ──

  /** The entries by address, and the addresses from the most to the least recently used. */
  datatype State = State(entries: map<Address, Entry>, order: seq<Address>)

  /** The map and the list hold the same addresses, each once. */
  ghost predicate Consistent(s: State) {
    && NoDuplicates(s.order)
    && forall a :: a in s.entries <==> a in s.order
  }

  function MovedToFront(order: seq<Address>, addr: Address): seq<Address> {
    [addr] + Without(order, addr)
  }

  predicate Overfull(cfg: Config, tracked: nat) {
    cfg.maxTrackedAddrs > 0 && tracked > cfg.maxTrackedAddrs
  }

  function GetOrCreate(cfg: Config, s: State, addr: Address): State {
    if addr in s.entries then s.(order := MovedToFront(s.order, addr))
    else
      var added := State(s.entries[addr := NEW_ENTRY], [addr] + s.order);
      if !Overfull(cfg, |added.order|) then added
      else
        var oldest := added.order[|added.order| - 1];
        State(added.entries - {oldest}, added.order[..|added.order| - 1])
  }

  function Decayed(cfg: Config, e: Entry, now: int): Entry {
    if e.strikes > 0 && now - e.lastStrike > cfg.strikeResetAfter then e.(strikes := 0, blockedUntil := ZERO_TIME) else e
  }

  function BlockFor(cfg: Config, strikes: nat): int {
    if strikes > cfg.freeStrikes then
      ScaledDuration(cfg.initialBlock, cfg.multiplier, strikes - cfg.freeStrikes - 1, cfg.maxBlock)
    else 0
  }

  function Struck(cfg: Config, e: Entry, now: int): Entry {
    var n := Decayed(cfg, e, now).strikes + 1;
    Entry(n, if n > cfg.freeStrikes then now + BlockFor(cfg, n) else Decayed(cfg, e, now).blockedUntil, now)
  }

  function Expired(cfg: Config, e: Entry, now: int): bool {
    e.lastStrike < now - cfg.strikeResetAfter && e.blockedUntil < now
  }

  function Survivors(cfg: Config, s: State, order: seq<Address>, now: int): seq<Address> {
    if order == [] then []
    else
      var rest := Survivors(cfg, s, order[1..], now);
      if order[0] in s.entries && Expired(cfg, s.entries[order[0]], now) then rest else [order[0]] + rest
  }

  // ── The blacklist ──

  class MemoryBlacklist {
    const cfg: Config
    var entries: map<Address, Entry>
    var order: seq<Address>

    ghost predicate Valid()
      reads this
    {
      Consistent(Value())
    }

    ghost function Value(): State
      reads this
    {
      State(entries, order)
    }

    constructor (cfg: Config)
      ensures Valid() && this.cfg == cfg && Value() == State(map[], [])
    {
      this.cfg, entries, order := cfg, map[], [];
    }

    method IsBlocked(addr: Address, now: int) returns (blocked: bool, retryAfter: int)
      requires Valid()
      modifies this
      ensures Valid()
      ensures (Value(), Asked(blocked, retryAfter)) == Apply(cfg, old(Value()), Ask(addr, now))
    {
      if addr !in entries { return false, 0; }
      MovingKeepsAddresses(order, addr);
      order := MovedToFront(order, addr);
      if entries[addr].blockedUntil > now { return true, entries[addr].blockedUntil - now; }
      return false, 0;
    }

    method Strike(addr: Address, now: int) returns (blockedFor: int, strikes: nat)
      requires Valid()
      modifies this
      ensures Valid()
      ensures (Value(), StruckFor(blockedFor, strikes)) == Apply(cfg, old(Value()), StrikeAt(addr, now))
    {
      hide GetOrCreate, ScaledDuration, NoDuplicates;
      GetOrCreateLocked(addr);
      var entry := entries[addr];
      if entry.strikes > 0 && now - entry.lastStrike > cfg.strikeResetAfter {
        entry := entry.(strikes := 0, blockedUntil := ZERO_TIME);
      }
      entry := entry.(strikes := entry.strikes + 1, lastStrike := now);
      blockedFor := 0;
      if entry.strikes > cfg.freeStrikes {
        var exp := entry.strikes - cfg.freeStrikes - 1;
        blockedFor := ScaledDuration(cfg.initialBlock, cfg.multiplier, exp, cfg.maxBlock);
        entry := entry.(blockedUntil := now + blockedFor);
      }
      entries := entries[addr := entry];
      return blockedFor, entry.strikes;
    }

    method GetOrCreateLocked(addr: Address)
      requires Valid()
      modifies this
      ensures Valid()
      ensures Value() == GetOrCreate(cfg, old(Value()), addr) && addr in entries
    {
      hide NoDuplicates, Without;
      CreatingKeepsConsistent(cfg, Value(), addr);
      if addr in entries {
        order := MovedToFront(order, addr);
        return;
      }
      order := [addr] + order;
      entries := entries[addr := NEW_ENTRY];
      if cfg.maxTrackedAddrs > 0 && |order| > cfg.maxTrackedAddrs {
        var oldest := order[|order| - 1];
        order := order[..|order| - 1];
        entries := entries - {oldest};
      }
    }

    /** Walks the list from its back, removing what has expired. */
    method SweepExpired(now: int)
      requires Valid()
      modifies this
      ensures Valid()
      ensures Value() == Apply(cfg, old(Value()), Sweep(now)).0
    {
      hide SweptFrom, Kept, Survivors, NoDuplicates;
      ghost var before := Value();
      var at := |order|;
      SweepingNothing(cfg, before, now);
      while at > 0
        invariant 0 <= at <= |before.order|
        invariant Value() == SweptFrom(cfg, before, now, at)
      {
        at := at - 1;
        SweepingOne(cfg, before, now, at);
        var addr := order[at];
        if Expired(cfg, entries[addr], now) {
          order := order[..at] + order[at + 1..];
          entries := entries - {addr};
        }
      }
      SweepKeepsConsistent(cfg, before, now);
    }
  }

  /** A sweep that has come from the back of the list down to `at`. */
  function SweptFrom(cfg: Config, s: State, now: int, at: nat): State
    requires at <= |s.order|
  {
    var order := s.order[..at] + Survivors(cfg, s, s.order[at..], now);
    State(Kept(s, order), order)
  }

  /** The entries of the addresses that are still listed. */
  function Kept(before: State, order: seq<Address>): map<Address, Entry> {
    map a | a in before.entries && a in order :: before.entries[a]
  }

  // ── Operations on values ──

  datatype Op = StrikeAt(addr: Address, now: int) | Ask(addr: Address, now: int) | Sweep(now: int)

  datatype Answer = StruckFor(blockedFor: int, strikes: nat) | Asked(blocked: bool, retryAfter: int) | Swept

  function AnswerOf(until: int, now: int): Answer {
    if until > now then Asked(true, until - now) else Asked(false, 0)
  }

  function Apply(cfg: Config, s: State, op: Op): (State, Answer) {
    match op
    case StrikeAt(addr, now) =>
      var found := GetOrCreate(cfg, s, addr);
      var e := Struck(cfg, if addr in found.entries then found.entries[addr] else NEW_ENTRY, now);
      (found.(entries := found.entries[addr := e]), StruckFor(BlockFor(cfg, e.strikes), e.strikes))
    case Ask(addr, now) =>
      if addr !in s.entries then (s, Asked(false, 0))
      else (s.(order := MovedToFront(s.order, addr)), AnswerOf(s.entries[addr].blockedUntil, now))
    case Sweep(now) =>
      (SweptFrom(cfg, s, now, 0), Swept)
  }

  function Run(cfg: Config, ops: seq<Op>): (State, seq<Answer>) {
    if ops == [] then (State(map[], []), [])
    else
      var (s, answers) := Run(cfg, ops[..|ops| - 1]);
      var (s', answer) := Apply(cfg, s, ops[|ops| - 1]);
      (s', answers + [answer])
  }

  // ── The list and the map stay together ──

  lemma MovingKeepsAddresses(order: seq<Address>, addr: Address)
    requires NoDuplicates(order) && addr in order
    ensures NoDuplicates(MovedToFront(order, addr))
    ensures forall a :: a in MovedToFront(order, addr) <==> a in order
    ensures |MovedToFront(order, addr)| <= |order|
  {
    WithoutHolds(order, addr);
  }

  lemma RemovingOne(s: State, at: nat)
    requires Consistent(s) && at < |s.order|
    ensures Consistent(State(s.entries - {s.order[at]}, s.order[..at] + s.order[at + 1..]))
    ensures forall a :: a in s.order[..at] + s.order[at + 1..] <==> a in s.order && a != s.order[at]
  {
    var rest := s.order[..at] + s.order[at + 1..];
    assert forall k :: 0 <= k < |rest| ==> rest[k] == s.order[if k < at then k else k + 1];
    forall a | a in s.order && a != s.order[at] ensures a in rest {
      var k :| 0 <= k < |s.order| && s.order[k] == a;
      assert rest[if k < at then k else k - 1] == a;
    }
  }

  lemma CreatingKeepsConsistent(cfg: Config, s: State, addr: Address)
    requires Consistent(s)
    ensures var s' := GetOrCreate(cfg, s, addr); Consistent(s') && addr in s'.entries && s'.order[0] == addr
  {
    if addr in s.entries {
      MovingKeepsAddresses(s.order, addr);
    } else {
      var added := State(s.entries[addr := NEW_ENTRY], [addr] + s.order);
      assert Consistent(added);
      RemovingOne(added, |added.order| - 1);
      var last := |added.order| - 1;
      assert added.order[..last] + added.order[last + 1..] == added.order[..last];
      if Overfull(cfg, |added.order|) { assert added.order[0] != added.order[last]; }
    }
  }

  lemma SweepingNothing(cfg: Config, s: State, now: int)
    requires Consistent(s)
    ensures SweptFrom(cfg, s, now, |s.order|) == s
  {
    assert s.order[..|s.order|] + [] == s.order;
    assert Kept(s, s.order) == s.entries;
  }

  lemma {:induction false} SurvivorsAre(cfg: Config, s: State, order: seq<Address>, now: int)
    requires NoDuplicates(order)
    ensures NoDuplicates(Survivors(cfg, s, order, now))
    ensures forall a :: a in Survivors(cfg, s, order, now) <==>
                        a in order && !(a in s.entries && Expired(cfg, s.entries[a], now))
  {
    if order != [] {
      SurvivorsAre(cfg, s, order[1..], now);
      assert order[0] !in order[1..];
      assert forall a :: a in order <==> a == order[0] || a in order[1..];
    }
  }

  lemma SurvivorsBefore(cfg: Config, s: State, now: int, at: nat)
    requires Consistent(s) && at < |s.order|
    ensures var rest := Survivors(cfg, s, s.order[at + 1..], now);
      Survivors(cfg, s, s.order[at..], now) ==
      if Expired(cfg, s.entries[s.order[at]], now) then rest else [s.order[at]] + rest
  {
    assert s.order[at..][0] == s.order[at] && s.order[at..][1..] == s.order[at + 1..];
  }

  /** One step of the sweep: the entry at `at` goes if it has expired, and nothing else changes. */
  lemma SweepingOne(cfg: Config, s: State, now: int, at: nat)
    requires Consistent(s) && at < |s.order|
    ensures var done, next := SweptFrom(cfg, s, now, at + 1), SweptFrom(cfg, s, now, at);
      var addr := s.order[at];
      && at < |done.order| && done.order[at] == addr && addr in done.entries && done.entries[addr] == s.entries[addr]
      && next == if Expired(cfg, s.entries[addr], now)
                 then State(done.entries - {addr}, done.order[..at] + done.order[at + 1..]) else done
  {
    var addr, before, kept := s.order[at], s.order[..at], Survivors(cfg, s, s.order[at + 1..], now);
    SurvivorsBefore(cfg, s, now, at);
    SurvivorsAre(cfg, s, s.order[at + 1..], now);
    assert s.order[..at + 1] == before + [addr];
    hide Expired, NoDuplicates, Survivors, Kept;
    KeptWithout(s, before, addr, kept);
    AroundMiddle(before, addr, kept);
  }

  lemma AroundMiddle(before: seq<Address>, addr: Address, after: seq<Address>)
    ensures var all, at := before + [addr] + after, |before|;
      all == before + ([addr] + after) && all[..at] == before && all[at] == addr && all[at + 1..] == after
  {
  }

  /** Taking an address off the list takes its entry, and no other, out of the map. */
  lemma KeptWithout(s: State, before: seq<Address>, addr: Address, after: seq<Address>)
    requires addr in s.entries && addr !in before && addr !in after
    ensures var done := Kept(s, before + [addr] + after);
      addr in done && done[addr] == s.entries[addr] && Kept(s, before + after) == done - {addr}
  {
    TakingOut(before, addr, after);
    assert addr in before + [addr] + after;
  }

  lemma TakingOut(before: seq<Address>, addr: Address, after: seq<Address>)
    requires addr !in before && addr !in after
    ensures forall a :: a in before + after <==> a in before + [addr] + after && a != addr
  {
  }

  lemma SweepKeepsConsistent(cfg: Config, s: State, now: int)
    requires Consistent(s)
    ensures Consistent(SweptFrom(cfg, s, now, 0))
  {
    assert s.order[0..] == s.order;
    SurvivorsAre(cfg, s, s.order, now);
  }
}
