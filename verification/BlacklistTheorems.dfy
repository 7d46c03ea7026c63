/**
 The blacklist against a reference that keeps every strike time ever: what it answers,
 when its bound can be noticed, and the order of its list.
 */
module BlacklistTheorems {
  import opened Lists
  import opened NativeTypes
  import opened Blacklist

  // ── The reference ──

  function Time(op: Op): int {
    op.now
  }

  /** The clock of a run: positive, and never turned back. */
  predicate Clocked(ops: seq<Op>) {
    && (forall k :: 0 <= k < |ops| ==> Time(ops[k]) > 0)
    && (forall j, k :: 0 <= j < k < |ops| ==> Time(ops[j]) <= Time(ops[k]))
  }

  function Clock(ops: seq<Op>): int {
    if ops == [] then 0 else Time(ops[|ops| - 1])
  }

  /** When an address was struck, in order. */
  function StrikeTimes(ops: seq<Op>, addr: Address): seq<int> {
    if ops == [] then []
    else
      var last := ops[|ops| - 1];
      StrikeTimes(ops[..|ops| - 1], addr) + (if last.StrikeAt? && last.addr == addr then [last.now] else [])
  }

  /** The length of the longest run of latest times with no gap longer than `reset`. */
  function Streak(times: seq<int>, reset: int): nat {
    if |times| <= 1 then |times|
    else if times[|times| - 1] - times[|times| - 2] > reset then 1
    else Streak(times[..|times| - 1], reset) + 1
  }

  function BlockedUntil(cfg: Config, times: seq<int>): int
    requires times != []
  {
    var n := Streak(times, cfg.strikeResetAfter);
    if n > cfg.freeStrikes then times[|times| - 1] + BlockFor(cfg, n) else ZERO_TIME
  }

  /** What the reference answers to an operation after others. */
  function Expected(cfg: Config, ops: seq<Op>, op: Op): Answer {
    match op
    case StrikeAt(addr, now) =>
      var n := Streak(StrikeTimes(ops, addr) + [now], cfg.strikeResetAfter);
      StruckFor(BlockFor(cfg, n), n)
    case Ask(addr, now) =>
      var times := StrikeTimes(ops, addr);
      if times == [] then Asked(false, 0) else AnswerOf(BlockedUntil(cfg, times), now)
    case Sweep(_) => Swept
  }

  // ── What the reference says ──

  predicate Unbroken(times: seq<int>, n: nat, reset: int) {
    n <= |times| && forall k :: |times| - n < k < |times| ==> times[k] - times[k - 1] <= reset
  }

  /** The streak is unbroken, and no longer suffix is. */
  lemma {:induction false} StreakIsLongest(times: seq<int>, reset: int)
    ensures Unbroken(times, Streak(times, reset), reset)
    ensures forall n: nat :: Unbroken(times, n, reset) ==> n <= Streak(times, reset)
    ensures times != [] ==> Streak(times, reset) >= 1
  {
    if |times| > 1 {
      var before := times[..|times| - 1];
      StreakIsLongest(before, reset);
      forall n: nat | Unbroken(times, n, reset) ensures n <= Streak(times, reset) {
        if n > 1 {
          assert times[|times| - 1] - times[|times| - 2] <= reset;
          forall k | |before| - (n - 1) < k < |before| ensures before[k] - before[k - 1] <= reset {
            assert times[k] - times[k - 1] <= reset;
          }
          assert Unbroken(before, n - 1, reset);
        }
      }
    }
  }

  /** A block is the initial one times the multiplier for every strike beyond the first blocked, cut off at the longest. */
  lemma BlockFormula(cfg: Config, strikes: nat)
    requires strikes > cfg.freeStrikes
    ensures BlockFor(cfg, strikes) ==
            Min(Trunc(Scaled(cfg.initialBlock, cfg.multiplier, strikes - cfg.freeStrikes - 1)), cfg.maxBlock)
  {
    var exp := strikes - cfg.freeStrikes - 1;
    if exp == 0 { ScaledByNothing(cfg.initialBlock, cfg.multiplier); }
    hide Scaled, Trunc;
    TruncAgainst(Scaled(cfg.initialBlock, cfg.multiplier, exp), cfg.maxBlock);
  }

  /** Each strike more multiplies the block once more, and dropping the fraction takes less than a nanosecond off it. */
  lemma BlocksMultiply(base: int, multiplier: real, n: nat)
    ensures Scaled(base, multiplier, 0) == base as real
    ensures Scaled(base, multiplier, n + 1) == multiplier * Scaled(base, multiplier, n)
    ensures var x := Scaled(base, multiplier, n);
      if x >= 0.0 then Trunc(x) as real <= x < Trunc(x) as real + 1.0
      else Trunc(x) as real - 1.0 < x <= Trunc(x) as real
  {
    var p := Pow(multiplier, n);
    assert Pow(multiplier, n + 1) == multiplier * p;
    assert base as real * (multiplier * p) == multiplier * (base as real * p);
  }

  /** A strike within the free ones earns no block. */
  lemma FreeStrikesAreFree(cfg: Config, ops: seq<Op>, addr: Address, now: int)
    ensures Expected(cfg, ops, StrikeAt(addr, now)).strikes == Streak(StrikeTimes(ops, addr) + [now], cfg.strikeResetAfter)
    ensures Expected(cfg, ops, StrikeAt(addr, now)).strikes <= cfg.freeStrikes ==>
      Expected(cfg, ops, StrikeAt(addr, now)).blockedFor == 0
  {
  }

  /**
   An address is blocked exactly when its last strike was beyond the free ones and the block it
   earned is not over, and it is told how long that block still lasts.
   */
  lemma BlockedWhileItLasts(cfg: Config, ops: seq<Op>, addr: Address, now: int)
    ensures var times := StrikeTimes(ops, addr);
      var n, answer := Streak(times, cfg.strikeResetAfter), Expected(cfg, ops, Ask(addr, now));
      && answer.Asked?
      && (now >= 0 ==>
            (answer.blocked <==>
               times != [] && n > cfg.freeStrikes && now < times[|times| - 1] + BlockFor(cfg, n)))
      && (now >= 0 && answer.blocked ==> answer.retryAfter == times[|times| - 1] + BlockFor(cfg, n) - now)
      && (!answer.blocked ==> answer.retryAfter == 0)
  {
    hide BlockFor, Streak, StrikeTimes;
  }

  /** A sweep takes exactly the addresses not struck within the reset time and no longer blocked. */
  lemma SweepTakesTheExpired(cfg: Config, s: State, now: int)
    requires Consistent(s)
    ensures var s' := Apply(cfg, s, Sweep(now)).0;
      && Consistent(s')
      && (forall a :: a in s'.entries <==>
            a in s.entries && !(s.entries[a].lastStrike < now - cfg.strikeResetAfter && s.entries[a].blockedUntil < now))
      && (forall a :: a in s'.entries ==> s'.entries[a] == s.entries[a])
  {
    SweepKeepsConsistent(cfg, s, now);
    SurvivorsAre(cfg, s, s.order, now);
    assert s.order[0..] == s.order && s.order[..0] == [];
    hide Survivors, NoDuplicates;
    var order := Survivors(cfg, s, s.order, now);
    assert [] + order == order;
  }

  lemma ScaledByNothing(base: int, multiplier: real)
    ensures Trunc(Scaled(base, multiplier, 0)) == base
  {
    assert Scaled(base, multiplier, 0) == base as real;
    if base < 0 { assert -(base as real) == (-base) as real; }
  }

  lemma TruncAgainst(x: real, max: int)
    ensures x > max as real ==> Trunc(x) >= max
    ensures x <= max as real ==> Trunc(x) <= max
  {
    if x < 0.0 {
      var f := (-x).Floor;
      assert f as real <= -x < f as real + 1.0;
      assert x > max as real ==> f as real < (-max) as real;
      assert x <= max as real ==> (-max) as real < f as real + 1.0;
    } else {
      var f := x.Floor;
      assert f as real <= x < f as real + 1.0;
      assert x > max as real ==> (max as real) < f as real + 1.0;
    }
  }

  lemma TruncGrows(x: real, y: real)
    requires 0.0 <= x <= y
    ensures Trunc(x) <= Trunc(y)
  {
    assert x.Floor as real <= x && y < y.Floor as real + 1.0;
  }

  lemma {:induction false} PowGrows(x: real, m: nat, n: nat)
    requires x >= 1.0 && m <= n
    ensures 1.0 <= Pow(x, m) <= Pow(x, n)
    decreases n
  {
    if m < n {
      PowGrows(x, m, n - 1);
      ProductGrows(Pow(x, n - 1), 1.0, x);
      assert Pow(x, n) == x * Pow(x, n - 1);
    } else if n > 0 {
      PowGrows(x, m - 1, n - 1);
      ProductGrows(Pow(x, n - 1), 1.0, x);
      assert Pow(x, n) == x * Pow(x, n - 1);
    }
  }

  lemma ProductGrows(base: real, a: real, b: real)
    requires base >= 0.0 && 0.0 <= a <= b
    ensures 0.0 <= base * a <= base * b
  {
    assert base * b == base * a + base * (b - a);
  }

  lemma ScaledGrows(base: int, multiplier: real, m: nat, n: nat)
    requires base >= 0 && multiplier >= 1.0 && m <= n
    ensures 0.0 <= Scaled(base, multiplier, m) <= Scaled(base, multiplier, n)
  {
    PowGrows(multiplier, m, n);
    hide Pow;
    ProductGrows(base as real, Pow(multiplier, m), Pow(multiplier, n));
  }

  /** With the multiplier at least 1, a longer streak never earns a shorter block. */
  lemma BlocksGrow(cfg: Config, m: nat, n: nat)
    requires cfg.initialBlock >= 0 && cfg.multiplier >= 1.0 && cfg.freeStrikes < m <= n
    ensures BlockFor(cfg, m) <= BlockFor(cfg, n) <= cfg.maxBlock
  {
    BlockFormula(cfg, m);
    BlockFormula(cfg, n);
    hide Scaled, BlockFor, Trunc;
    var i, j := m - cfg.freeStrikes - 1, n - cfg.freeStrikes - 1;
    ScaledGrows(cfg.initialBlock, cfg.multiplier, i, j);
    TruncGrows(Scaled(cfg.initialBlock, cfg.multiplier, i), Scaled(cfg.initialBlock, cfg.multiplier, j));
  }

  // ── The simulation ──

  function EntryOf(cfg: Config, times: seq<int>): Entry
    requires times != []
  {
    Entry(Streak(times, cfg.strikeResetAfter), BlockedUntil(cfg, times), times[|times| - 1])
  }

  /** Nothing that a new entry would not say is left of these strikes. */
  predicate Lapsed(cfg: Config, times: seq<int>, clock: int)
    requires times != []
  {
    clock - times[|times| - 1] > cfg.strikeResetAfter && BlockedUntil(cfg, times) <= clock
  }

  ghost predicate Knows(cfg: Config, s: State, ops: seq<Op>, addr: Address, clock: int) {
    var times := StrikeTimes(ops, addr);
    if addr in s.entries then times != [] && s.entries[addr] == EntryOf(cfg, times)
    else times == [] || Lapsed(cfg, times, clock)
  }

  /** The blacklist knows of every address all that matters. */
  ghost predicate Faithful(cfg: Config, ops: seq<Op>) {
    var s := Run(cfg, ops).0;
    forall addr :: Knows(cfg, s, ops, addr, Clock(ops))
  }

  /** Whether an operation evicts an entry. */
  ghost predicate Evicts(cfg: Config, s: State, op: Op) {
    op.StrikeAt? && op.addr !in s.entries && Overfull(cfg, |s.order| + 1)
  }

  /** The entry at the back of the list, which is what gets evicted. */
  ghost predicate VictimLapsed(cfg: Config, s: State, ops: seq<Op>, clock: int)
    requires s.order != []
  {
    var times := StrikeTimes(ops, s.order[|s.order| - 1]);
    times != [] && Lapsed(cfg, times, clock)
  }

  lemma {:induction false} RunIsConsistent(cfg: Config, ops: seq<Op>)
    ensures Consistent(Run(cfg, ops).0)
  {
    if ops != [] {
      RunIsConsistent(cfg, ops[..|ops| - 1]);
      ApplyKeepsConsistent(cfg, Run(cfg, ops[..|ops| - 1]).0, ops[|ops| - 1]);
    }
  }

  lemma ApplyKeepsConsistent(cfg: Config, s: State, op: Op)
    requires Consistent(s)
    ensures Consistent(Apply(cfg, s, op).0)
    ensures op.StrikeAt? ==> op.addr in GetOrCreate(cfg, s, op.addr).entries
  {
    match op
    case StrikeAt(addr, now) => CreatingKeepsConsistent(cfg, s, addr);
    case Ask(addr, now) => if addr in s.entries { MovingKeepsAddresses(s.order, addr); }
    case Sweep(now) => SweepKeepsConsistent(cfg, s, now);
  }

  lemma RunSnoc(cfg: Config, ops: seq<Op>, op: Op)
    ensures Run(cfg, ops + [op]) == var (s, answers) := Run(cfg, ops);
      (Apply(cfg, s, op).0, answers + [Apply(cfg, s, op).1])
    ensures forall addr ::
      StrikeTimes(ops + [op], addr) == StrikeTimes(ops, addr) + (if op.StrikeAt? && op.addr == addr then [op.now] else [])
    ensures Clock(ops + [op]) == Time(op)
  {
    assert (ops + [op])[..|ops|] == ops;
  }

  lemma ClockedSnoc(ops: seq<Op>, op: Op)
    ensures Clocked(ops + [op]) <==> Clocked(ops) && Time(op) > 0 && (ops == [] || Clock(ops) <= Time(op))
  {
    var all := ops + [op];
    assert all[|ops|] == op;
    forall k | 0 <= k < |ops| ensures all[k] == ops[k] {}
    if Clocked(all) {
      forall k | 0 <= k < |ops| ensures Time(ops[k]) > 0 { assert Time(all[k]) > 0; }
      forall j, k | 0 <= j < k < |ops| ensures Time(ops[j]) <= Time(ops[k]) { assert Time(all[j]) <= Time(all[k]); }
      assert Time(all[|ops|]) > 0;
      if ops != [] { assert Time(all[|ops| - 1]) <= Time(all[|ops|]); }
    }
    if Clocked(ops) && Time(op) > 0 && (ops == [] || Clock(ops) <= Time(op)) {
      forall k | 0 <= k < |all| ensures Time(all[k]) > 0 { if k < |ops| { assert Time(ops[k]) > 0; } }
      forall j, k | 0 <= j < k < |all| ensures Time(all[j]) <= Time(all[k]) {
        if k < |ops| {
          assert Time(ops[j]) <= Time(ops[k]);
        } else if j < |ops| - 1 {
          assert Time(ops[j]) <= Time(ops[|ops| - 1]);
        }
      }
    }
  }

  /** One more strike at an entry that says what the times say gives the entry of the times with it. */
  lemma StrikingEntry(cfg: Config, times: seq<int>, now: int)
    requires times != [] ==> times[|times| - 1] <= now
    ensures times != [] ==> Struck(cfg, EntryOf(cfg, times), now) == EntryOf(cfg, times + [now])
    ensures times == [] || Lapsed(cfg, times, now) ==> Struck(cfg, NEW_ENTRY, now) == EntryOf(cfg, times + [now])
  {
    assert (times + [now])[..|times|] == times;
    StreakIsLongest(times, cfg.strikeResetAfter);
  }

  /** What GetOrCreate does to the entries. */
  lemma CreatingEntries(cfg: Config, s: State, addr: Address, a: Address)
    requires Consistent(s)
    ensures var s' := GetOrCreate(cfg, s, addr);
      && addr in s'.entries && s'.entries[addr] == (if addr in s.entries then s.entries[addr] else NEW_ENTRY)
      && (a != addr && a in s'.entries ==> a in s.entries && s'.entries[a] == s.entries[a])
      && (a in s.entries && a !in s'.entries ==>
            Overfull(cfg, |s.order| + 1) && addr !in s.entries && s.order != [] && a == s.order[|s.order| - 1])
  {
    CreatingKeepsConsistent(cfg, s, addr);
    if addr !in s.entries { CreatingNew(cfg, s, addr, a); }
  }

  lemma CreatingNew(cfg: Config, s: State, addr: Address, a: Address)
    requires Consistent(s) && addr !in s.entries
    ensures var s' := GetOrCreate(cfg, s, addr);
      && (addr in s'.entries ==> s'.entries[addr] == NEW_ENTRY)
      && (a != addr && a in s'.entries ==> a in s.entries && s'.entries[a] == s.entries[a])
      && (a in s.entries && a !in s'.entries ==>
            Overfull(cfg, |s.order| + 1) && s.order != [] && a == s.order[|s.order| - 1])
  {
    var added, entries := [addr] + s.order, s.entries[addr := NEW_ENTRY];
    var oldest := added[|added| - 1];
    assert oldest == if s.order == [] then addr else s.order[|s.order| - 1];
    hide NoDuplicates;
    assert forall x :: x in entries - {oldest} ==> x in entries && (entries - {oldest})[x] == entries[x];
  }

  /** Strike times are among the times of the run. */
  lemma {:induction false} StrikesAreInThePast(ops: seq<Op>, addr: Address)
    requires Clocked(ops)
    ensures forall t :: t in StrikeTimes(ops, addr) ==> t <= Clock(ops)
  {
    if ops != [] {
      var before, last := ops[..|ops| - 1], ops[|ops| - 1];
      assert before + [last] == ops;
      ClockedSnoc(before, last);
      hide Clocked;
      StrikesAreInThePast(before, addr);
      if before == [] { assert StrikeTimes(before, addr) == []; }
    }
  }

  /** While the blacklist knows all that matters, it answers as the reference. */
  lemma FaithfulAnswers(cfg: Config, ops: seq<Op>, op: Op)
    requires Clocked(ops + [op]) && Faithful(cfg, ops)
    ensures Apply(cfg, Run(cfg, ops).0, op).1 == Expected(cfg, ops, op)
  {
    if !op.Sweep? {
      hide GetOrCreate, Run;
      var s, addr, now := Run(cfg, ops).0, op.addr, op.now;
      var times := StrikeTimes(ops, addr);
      assert Knows(cfg, s, ops, addr, Clock(ops));
      ClockedSnoc(ops, op);
      StrikesAreInThePast(ops, addr);
      RunIsConsistent(cfg, ops);
      CreatingEntries(cfg, s, addr, addr);
      if times != [] { assert times[|times| - 1] in times; }
      StrikingEntry(cfg, times, now);
      if op.StrikeAt? && addr !in s.entries && times != [] { LapsedLater(cfg, times, Clock(ops), now); }
    }
  }

  lemma LapsedLater(cfg: Config, times: seq<int>, clock: int, later: int)
    requires times != [] && Lapsed(cfg, times, clock) && clock <= later
    ensures Lapsed(cfg, times, later)
  {
  }

  /** Operations keep it so, as long as an evicted entry had nothing left to say. */
  lemma FaithfulStays(cfg: Config, ops: seq<Op>, op: Op)
    requires Clocked(ops + [op]) && Faithful(cfg, ops)
    requires var s := Run(cfg, ops).0;
      Evicts(cfg, s, op) && s.order != [] ==> VictimLapsed(cfg, s, ops, Time(op))
    ensures Faithful(cfg, ops + [op])
  {
    var s := Run(cfg, ops).0;
    RunSnoc(cfg, ops, op);
    ClockedSnoc(ops, op);
    RunIsConsistent(cfg, ops);
    hide Run, Clocked, Consistent, Lapsed, EntryOf, Struck, GetOrCreate, StrikeTimes;
    forall addr ensures Knows(cfg, Run(cfg, ops + [op]).0, ops + [op], addr, Time(op)) {
      assert Knows(cfg, s, ops, addr, Clock(ops));
      match op
      case StrikeAt(_, _) => StrikeKeepsKnowing(cfg, s, ops, op, addr);
      case Ask(_, _) => TimeKeepsKnowing(cfg, s, Apply(cfg, s, op).0, ops, op, addr);
      case Sweep(_) => SweepKeepsKnowing(cfg, s, ops, op, addr);
    }
  }

  lemma TimeKeepsKnowing(cfg: Config, s: State, s': State, ops: seq<Op>, op: Op, addr: Address)
    requires Knows(cfg, s, ops, addr, Clock(ops)) && Clocked(ops + [op])
    requires s'.entries == s.entries && !op.StrikeAt?
    ensures Knows(cfg, s', ops + [op], addr, Time(op))
  {
    RunSnoc(cfg, ops, op);
    ClockedSnoc(ops, op);
    var times := StrikeTimes(ops, addr);
    assert StrikeTimes(ops + [op], addr) == times;
    if ops == [] { assert times == []; }
  }

  lemma SweepKeepsKnowing(cfg: Config, s: State, ops: seq<Op>, op: Op, addr: Address)
    requires Consistent(s) && op.Sweep? && Clocked(ops + [op]) && Knows(cfg, s, ops, addr, Clock(ops))
    ensures Knows(cfg, Apply(cfg, s, op).0, ops + [op], addr, Time(op))
  {
    TimeKeepsKnowing(cfg, s, s, ops, op, addr);
    SurvivorsAre(cfg, s, s.order, op.now);
    assert s.order[0..] == s.order;
    var s' := Apply(cfg, s, op).0;
    assert addr in s'.order <==> addr in s.order && !Expired(cfg, s.entries[addr], op.now);
  }

  lemma StrikeKeepsKnowing(cfg: Config, s: State, ops: seq<Op>, op: Op, addr: Address)
    requires Consistent(s) && op.StrikeAt? && Clocked(ops + [op])
    requires Knows(cfg, s, ops, addr, Clock(ops))
    requires Evicts(cfg, s, op) && s.order != [] ==> VictimLapsed(cfg, s, ops, Time(op))
    ensures Knows(cfg, Apply(cfg, s, op).0, ops + [op], addr, Time(op))
  {
    hide GetOrCreate, Struck, Lapsed, EntryOf, Consistent;
    var times := StrikeTimes(ops, addr);
    RunSnoc(cfg, ops, op);
    ClockedSnoc(ops, op);
    CreatingEntries(cfg, s, op.addr, addr);
    StrikesBefore(ops, op, addr);
    if addr == op.addr {
      if times != [] && addr !in s.entries { LapsedLater(cfg, times, Clock(ops), op.now); }
      StrikingEntry(cfg, times, op.now);
    } else {
      assert StrikeTimes(ops + [op], addr) == times;
      if addr !in s.entries && times != [] { LapsedLater(cfg, times, Clock(ops), op.now); }
    }
  }

  lemma StrikesBefore(ops: seq<Op>, op: Op, addr: Address)
    requires Clocked(ops + [op])
    ensures var times := StrikeTimes(ops, addr);
      times != [] ==> times[|times| - 1] <= Time(op) && Clock(ops) <= Time(op)
  {
    ClockedSnoc(ops, op);
    StrikesAreInThePast(ops, addr);
    var times := StrikeTimes(ops, addr);
    if times != [] { assert times[|times| - 1] in times; }
  }

  // ── The answers ──

  /** Every eviction of the run is of an entry with nothing left to say. */
  ghost predicate HarmlessEvictions(cfg: Config, ops: seq<Op>) {
    forall k :: 0 <= k < |ops| ==> HarmlessAt(cfg, ops[..k], ops[k])
  }

  ghost predicate HarmlessAt(cfg: Config, ops: seq<Op>, op: Op) {
    var s := Run(cfg, ops).0;
    Evicts(cfg, s, op) && s.order != [] ==> VictimLapsed(cfg, s, ops, Time(op))
  }

  /** Whatever is asked next, the answer is the reference's. */
  ghost predicate AnswersRight(cfg: Config, ops: seq<Op>) {
    forall op :: Clocked(ops + [op]) ==> Apply(cfg, Run(cfg, ops).0, op).1 == Expected(cfg, ops, op)
  }

  lemma {:induction false} RunIsFaithful(cfg: Config, ops: seq<Op>)
    requires Clocked(ops) && HarmlessEvictions(cfg, ops)
    ensures Faithful(cfg, ops)
  {
    if ops != [] {
      var before, last := ops[..|ops| - 1], ops[|ops| - 1];
      assert before + [last] == ops;
      ClockedSnoc(before, last);
      HarmlessSnoc(cfg, before, last);
      RunIsFaithful(cfg, before);
      FaithfulStays(cfg, before, last);
    }
  }

  lemma HarmlessSnoc(cfg: Config, ops: seq<Op>, op: Op)
    ensures HarmlessEvictions(cfg, ops + [op]) <==> HarmlessEvictions(cfg, ops) && HarmlessAt(cfg, ops, op)
  {
    hide HarmlessAt;
    var all := ops + [op];
    assert forall k :: 0 <= k <= |ops| ==> all[..k] == ops[..k];
    assert ops[..|ops|] == ops && all[|ops|] == op;
    if HarmlessEvictions(cfg, all) {
      assert HarmlessAt(cfg, all[..|ops|], all[|ops|]);
      forall k | 0 <= k < |ops| ensures HarmlessAt(cfg, ops[..k], ops[k]) {
        assert HarmlessAt(cfg, all[..k], all[k]);
      }
    }
  }

  /** An eviction of an entry that still had something to say can be noticed at once. */
  lemma HarmCanBeNoticed(cfg: Config, ops: seq<Op>, op: Op)
    requires Clocked(ops + [op]) && Faithful(cfg, ops) && !HarmlessAt(cfg, ops, op)
    ensures !AnswersRight(cfg, ops + [op])
  {
    hide Run, Faithful, GetOrCreate;
    var s := Run(cfg, ops).0;
    var victim, now := s.order[|s.order| - 1], op.now;
    var times := StrikeTimes(ops, victim);
    assert Knows(cfg, s, ops, victim, Clock(ops)) by { FaithfulKnows(cfg, ops, victim); }
    RunIsConsistent(cfg, ops);
    VictimIsGone(cfg, s, op);
    RunSnoc(cfg, ops, op);
    assert StrikeTimes(ops + [op], victim) == times;
    ClockedSnoc(ops, op);
    ForgottenIsNoticed(cfg, ops + [op], victim);
  }

  lemma ForgottenIsNoticed(cfg: Config, ops: seq<Op>, addr: Address)
    requires ops != [] && Clocked(ops) && addr !in Run(cfg, ops).0.entries
    requires var times := StrikeTimes(ops, addr); times != [] && !Lapsed(cfg, times, Clock(ops))
    ensures !AnswersRight(cfg, ops)
  {
    hide Run, GetOrCreate, StrikeTimes;
    var s, times, now := Run(cfg, ops).0, StrikeTimes(ops, addr), Clock(ops);
    RunIsConsistent(cfg, ops);
    CreatingEntries(cfg, s, addr, addr);
    StreakIsLongest(times, cfg.strikeResetAfter);
    assert (times + [now])[..|times|] == times;
    var next := if now - times[|times| - 1] <= cfg.strikeResetAfter then StrikeAt(addr, now) else Ask(addr, now);
    ClockedSnoc(ops, next);
    if next.StrikeAt? {
      assert Streak(times + [now], cfg.strikeResetAfter) == Streak(times, cfg.strikeResetAfter) + 1;
      assert Apply(cfg, s, next).1.strikes == 1;
    }
    assert Apply(cfg, s, next).1 != Expected(cfg, ops, next);
  }

  lemma FaithfulKnows(cfg: Config, ops: seq<Op>, addr: Address)
    requires Faithful(cfg, ops)
    ensures Knows(cfg, Run(cfg, ops).0, ops, addr, Clock(ops))
  {
  }

  lemma VictimIsGone(cfg: Config, s: State, op: Op)
    requires Consistent(s) && Evicts(cfg, s, op) && s.order != []
    ensures var victim := s.order[|s.order| - 1];
      victim in s.entries && victim != op.addr && victim !in Apply(cfg, s, op).0.entries
  {
    CreatingKeepsConsistent(cfg, s, op.addr);
    assert s.order[|s.order| - 1] in s.order;
  }

  /**
   The blacklist answers everything, at every point of a run, as a reference with unlimited
   memory would, exactly when each address it evicts to stay within its bound was by then
   unblocked and quiet for longer than the reset time. Sweeps make no difference.
   */
  lemma AnswersAsTheReference(cfg: Config, ops: seq<Op>)
    requires Clocked(ops)
    ensures (forall k :: 0 <= k <= |ops| ==> AnswersRight(cfg, ops[..k])) <==> HarmlessEvictions(cfg, ops)
  {
    hide AnswersRight, HarmlessAt, Faithful, Clocked;
    if HarmlessEvictions(cfg, ops) {
      forall k | 0 <= k <= |ops| ensures AnswersRight(cfg, ops[..k]) {
        PrefixIsHarmless(cfg, ops, k);
        FaithfulIsRight(cfg, ops[..k]);
      }
    } else {
      var k := FirstHarm(cfg, ops);
      RunIsFaithful(cfg, ops[..k]);
      assert ops[..k] + [ops[k]] == ops[..k + 1];
      HarmCanBeNoticed(cfg, ops[..k], ops[k]);
    }
  }

  lemma PrefixIsHarmless(cfg: Config, ops: seq<Op>, k: nat)
    requires k <= |ops| && Clocked(ops)
    requires forall j :: 0 <= j < k ==> HarmlessAt(cfg, ops[..j], ops[j])
    ensures Clocked(ops[..k]) && HarmlessEvictions(cfg, ops[..k])
  {
    hide HarmlessAt;
    forall j | 0 <= j < k ensures HarmlessAt(cfg, ops[..k][..j], ops[..k][j]) {
      assert ops[..k][..j] == ops[..j];
      assert HarmlessAt(cfg, ops[..j], ops[j]);
    }
  }

  lemma ClockedPrefix(ops: seq<Op>, k: nat)
    requires k <= |ops| && Clocked(ops)
    ensures Clocked(ops[..k])
  {
  }

  lemma FirstHarm(cfg: Config, ops: seq<Op>) returns (k: nat)
    requires Clocked(ops) && !HarmlessEvictions(cfg, ops)
    ensures k < |ops| && Clocked(ops[..k]) && Clocked(ops[..k + 1])
    ensures HarmlessEvictions(cfg, ops[..k]) && !HarmlessAt(cfg, ops[..k], ops[k])
  {
    hide HarmlessAt, Clocked;
    var harmful :| 0 <= harmful < |ops| && !HarmlessAt(cfg, ops[..harmful], ops[harmful]);
    k := 0;
    while HarmlessAt(cfg, ops[..k], ops[k])
      invariant k <= harmful
      invariant forall j :: 0 <= j < k ==> HarmlessAt(cfg, ops[..j], ops[j])
      decreases harmful - k
    {
      k := k + 1;
    }
    PrefixIsHarmless(cfg, ops, k);
    ClockedPrefix(ops, k + 1);
  }

  lemma FaithfulIsRight(cfg: Config, ops: seq<Op>)
    requires Clocked(ops) && HarmlessEvictions(cfg, ops)
    ensures AnswersRight(cfg, ops)
  {
    hide Run, HarmlessEvictions;
    RunIsFaithful(cfg, ops);
    forall op | Clocked(ops + [op]) ensures Apply(cfg, Run(cfg, ops).0, op).1 == Expected(cfg, ops, op) {
      FaithfulAnswers(cfg, ops, op);
    }
  }

  lemma {:induction false} StrikeTimesInTurn(a: seq<Op>, b: seq<Op>, addr: Address)
    ensures StrikeTimes(a + b, addr) == StrikeTimes(a, addr) + StrikeTimes(b, addr)
    decreases b
  {
    if b == [] {
      assert a + b == a;
    } else {
      assert (a + b)[..|a + b| - 1] == a + b[..|b| - 1];
      StrikeTimesInTurn(a, b[..|b| - 1], addr);
    }
  }

  lemma ExpectedIgnores(cfg: Config, a: seq<Op>, extra: Op, b: seq<Op>, op: Op)
    requires !extra.StrikeAt?
    ensures Expected(cfg, a + [extra] + b, op) == Expected(cfg, a + b, op)
  {
    if !op.Sweep? {
      StrikeTimesInTurn(a + [extra], b, op.addr);
      StrikeTimesInTurn(a, [extra], op.addr);
      StrikeTimesInTurn(a, b, op.addr);
      assert [extra][..0] == [];
      assert StrikeTimes([extra], op.addr) == [];
      assert StrikeTimes(a, op.addr) + [] == StrikeTimes(a, op.addr);
    }
  }

  lemma ClockedWithout(a: seq<Op>, extra: Op, b: seq<Op>)
    requires Clocked(a + [extra] + b)
    ensures Clocked(a + b)
  {
    var all, some := a + [extra] + b, a + b;
    forall k | 0 <= k < |some| ensures some[k] == all[if k < |a| then k else k + 1] {}
    forall k | 0 <= k < |some| ensures Time(some[k]) > 0 { assert Time(all[if k < |a| then k else k + 1]) > 0; }
    forall j, k | 0 <= j < k < |some| ensures Time(some[j]) <= Time(some[k]) {
      var j', k' := if j < |a| then j else j + 1, if k < |a| then k else k + 1;
      assert Time(all[j']) <= Time(all[k']);
    }
  }

  /**
   A sweep or a question in the middle of a run is not noticed by anything answered later, as
   long as the evictions of the run, with it and without it, are harmless.
   */
  lemma SweepsAndQuestionsDoNotShow(cfg: Config, a: seq<Op>, extra: Op, b: seq<Op>, op: Op)
    requires !extra.StrikeAt? && Clocked(a + [extra] + b + [op])
    requires HarmlessEvictions(cfg, a + [extra] + b) && HarmlessEvictions(cfg, a + b)
    ensures Apply(cfg, Run(cfg, a + [extra] + b).0, op).1 == Apply(cfg, Run(cfg, a + b).0, op).1
  {
    var longer, shorter := a + [extra] + b, a + b;
    ClockedSnoc(longer, op);
    assert a + [extra] + (b + [op]) == longer + [op] && a + (b + [op]) == shorter + [op];
    ClockedWithout(a, extra, b + [op]);
    ClockedSnoc(shorter, op);
    hide Run, HarmlessEvictions, Clocked;
    FaithfulIsRight(cfg, longer);
    FaithfulIsRight(cfg, shorter);
    ExpectedIgnores(cfg, a, extra, b, op);
  }

  /** Without a bound nothing is evicted, so this holds of every run. */
  lemma UnboundedIsHarmless(cfg: Config, ops: seq<Op>)
    requires cfg.maxTrackedAddrs <= 0
    ensures HarmlessEvictions(cfg, ops)
  {
    hide Run;
    forall k | 0 <= k < |ops| ensures HarmlessAt(cfg, ops[..k], ops[k]) {}
  }

  // ── Runs that evict nothing ──

  function StruckAddresses(ops: seq<Op>): set<Address> {
    set k | 0 <= k < |ops| && ops[k].StrikeAt? :: ops[k].addr
  }

  lemma {:induction false} DistinctFit(order: seq<Address>, within: set<Address>)
    requires NoDuplicates(order) && forall a :: a in order ==> a in within
    ensures |order| <= |within|
  {
    if order != [] {
      var rest, last := order[..|order| - 1], order[|order| - 1];
      DistinctFit(rest, within - {last});
    }
  }

  lemma {:induction false} OnlyStruckAreTracked(cfg: Config, ops: seq<Op>)
    ensures forall a :: a in Run(cfg, ops).0.entries ==> a in StruckAddresses(ops)
  {
    if ops != [] {
      var before, last := ops[..|ops| - 1], ops[|ops| - 1];
      OnlyStruckAreTracked(cfg, before);
      assert StruckAddresses(before) <= StruckAddresses(ops);
      if last.StrikeAt? { assert last.addr == ops[|ops| - 1].addr; }
    }
  }

  /**
   Without a bound, or with no more distinct addresses struck than the bound allows, every
   answer of a run is the one the full history of strike times gives.
   */
  lemma AnswersFollowTheHistory(cfg: Config, ops: seq<Op>, k: nat)
    requires Clocked(ops) && k < |ops|
    requires cfg.maxTrackedAddrs <= 0 || |StruckAddresses(ops)| <= cfg.maxTrackedAddrs
    ensures |Run(cfg, ops).1| == |ops| && Run(cfg, ops).1[k] == Expected(cfg, ops[..k], ops[k])
  {
    hide Run, AnswersRight;
    forall j | 0 <= j < |ops| ensures HarmlessAt(cfg, ops[..j], ops[j]) { FewAddressesFit(cfg, ops, j); }
    AnswersAsTheReference(cfg, ops);
    AnswersAreKept(cfg, ops, k);
    assert AnswersRight(cfg, ops[..k]);
    RightNow(cfg, ops, k);
  }

  lemma RightNow(cfg: Config, ops: seq<Op>, k: nat)
    requires k < |ops| && Clocked(ops) && AnswersRight(cfg, ops[..k])
    ensures Apply(cfg, Run(cfg, ops[..k]).0, ops[k]).1 == Expected(cfg, ops[..k], ops[k])
  {
    assert ops[..k] + [ops[k]] == ops[..k + 1];
    assert Clocked(ops[..k + 1]);
  }

  lemma FewAddressesFit(cfg: Config, ops: seq<Op>, j: nat)
    requires j < |ops|
    requires cfg.maxTrackedAddrs <= 0 || |StruckAddresses(ops)| <= cfg.maxTrackedAddrs
    ensures !Evicts(cfg, Run(cfg, ops[..j]).0, ops[j])
  {
    var s, op := Run(cfg, ops[..j]).0, ops[j];
    if Evicts(cfg, s, op) {
      RunIsConsistent(cfg, ops[..j]);
      OnlyStruckAreTracked(cfg, ops[..j]);
      assert op.addr in StruckAddresses(ops);
      assert forall a :: a in StruckAddresses(ops[..j]) ==> a in StruckAddresses(ops);
      DistinctFit([op.addr] + s.order, StruckAddresses(ops));
    }
  }

  lemma {:induction false} AnswersAreKept(cfg: Config, ops: seq<Op>, k: nat)
    requires k < |ops|
    ensures |Run(cfg, ops).1| == |ops| && Run(cfg, ops).1[k] == Apply(cfg, Run(cfg, ops[..k]).0, ops[k]).1
    decreases |ops|
  {
    var before, last := ops[..|ops| - 1], ops[|ops| - 1];
    assert before + [last] == ops;
    RunSnoc(cfg, before, last);
    if before != [] { AnswersAreKept(cfg, before, if k < |before| then k else 0); }
    if k < |before| { assert before[..k] == ops[..k]; }
  }

  const A := Address("a")
  const B := Address("b")
  const C := Address("c")
  const ONE_TRACKED := Config(2, 1, 4.0, 900, 600, 1)
  const TWO_AND_ANOTHER := [StrikeAt(A, 1), StrikeAt(A, 2)] + [StrikeAt(B, 3)]

  /** With the bound reached the history is lost: the third strike at `a` counts as its first if `b` is struck before it. */
  lemma EvictionForgets()
    ensures Apply(ONE_TRACKED, Run(ONE_TRACKED, TWO_AND_ANOTHER).0, StrikeAt(A, 4)).1 == StruckFor(0, 1)
    ensures Expected(ONE_TRACKED, TWO_AND_ANOTHER, StrikeAt(A, 4)) == StruckFor(1, 3)
  {
    hide Apply, Expected;
    ForgottenHalf();
    RememberedHalf();
  }

  lemma ForgottenHalf()
    ensures Apply(ONE_TRACKED, Run(ONE_TRACKED, TWO_AND_ANOTHER).0, StrikeAt(A, 4)).1 == StruckFor(0, 1)
  {
    hide Run, LastUse, Apply;
    var before, b3 := [StrikeAt(A, 1), StrikeAt(A, 2)], StrikeAt(B, 3);
    RunSnoc(ONE_TRACKED, before, b3);
    ListIsByLastUse(ONE_TRACKED, before);
    RunIsConsistent(ONE_TRACKED, TWO_AND_ANOTHER);
    OneAddress(ONE_TRACKED, Run(ONE_TRACKED, before).0, b3);
    EvictedStrike(ONE_TRACKED, Run(ONE_TRACKED, TWO_AND_ANOTHER).0, StrikeAt(A, 4));
  }

  lemma RememberedHalf()
    ensures Expected(ONE_TRACKED, TWO_AND_ANOTHER, StrikeAt(A, 4)) == StruckFor(1, 3)
  {
    hide Run, StrikeTimes;
    TwoStrikes();
    RunSnoc(ONE_TRACKED, [StrikeAt(A, 1), StrikeAt(A, 2)], StrikeAt(B, 3));
    assert [1, 2] + [] == [1, 2];
    OneTwoFour();
  }

  lemma TwoStrikes()
    ensures StrikeTimes([StrikeAt(A, 1), StrikeAt(A, 2)], A) == [1, 2]
  {
    assert [StrikeAt(A, 1), StrikeAt(A, 2)][..1] == [StrikeAt(A, 1)];
    assert [StrikeAt(A, 1)][..0] == [];
    assert StrikeTimes([StrikeAt(A, 1)], A) == [1];
  }

  /** A bound of one leaves only the address struck last. */
  lemma OneAddress(cfg: Config, s: State, op: Op)
    requires Consistent(s) && op.StrikeAt? && cfg.maxTrackedAddrs == 1 && |s.order| <= 1
    ensures Apply(cfg, s, op).0.order == [op.addr]
  {
    if op.addr in s.entries {
      assert s.order == [op.addr];
      assert Without(s.order, op.addr) == [];
    }
  }

  lemma EvictedStrike(cfg: Config, s: State, op: Op)
    requires Consistent(s) && op.StrikeAt? && op.addr !in s.entries && cfg.freeStrikes >= 1
    ensures Apply(cfg, s, op).1 == StruckFor(0, 1)
  {
    CreatingEntries(cfg, s, op.addr, op.addr);
  }

  lemma OneTwoFour()
    ensures Streak([1, 2] + [4], 600) == 3
  {
    assert [1, 2] + [4] == [1, 2, 4] && [1, 2, 4][..2] == [1, 2] && [1, 2][..1] == [1];
    assert Streak([1, 2], 600) == 2;
  }

  const TWO_TRACKED := Config(2, 1, 4.0, 900, 600, 2)

  /** Two addresses struck once each, `b` after `a`. */
  const BOTH := State(map[A := Entry(1, ZERO_TIME, 1), B := Entry(1, ZERO_TIME, 2)], [B, A])

  lemma AfterBoth(cfg: Config)
    requires cfg.freeStrikes == 2 && cfg.maxTrackedAddrs == 2
    ensures Run(cfg, [StrikeAt(A, 1), StrikeAt(B, 2)]).0 == BOTH
  {
    var a1, b2 := StrikeAt(A, 1), StrikeAt(B, 2);
    assert [a1, b2][..1] == [a1] && [a1][..0] == [];
    assert Run(cfg, []).0 == State(map[], []);
    var one := Run(cfg, [a1]).0;
    assert one == State(map[A := Entry(1, ZERO_TIME, 1)], [A]);
    assert [B] + [A] == [B, A];
    assert Run(cfg, [a1, b2]).0 == Apply(cfg, one, b2).0;
  }

  /** A third address makes the one at the back of the list go, and a strike at the other counts on. */
  lemma ThirdEvicts(cfg: Config, s: State, now: int, gone: Address, kept: Address)
    requires cfg.freeStrikes == 2 && cfg.maxTrackedAddrs == 2 && cfg.strikeResetAfter >= now
    requires s.order == [kept, gone] && kept != gone && C !in s.entries && kept != C && gone != C
    requires kept in s.entries && s.entries[kept].strikes == 1 && 0 < s.entries[kept].lastStrike <= now
    ensures var s' := Apply(cfg, s, StrikeAt(C, now)).0;
      && Apply(cfg, s', StrikeAt(gone, now)).1 == StruckFor(0, 1)
      && Apply(cfg, s', StrikeAt(kept, now)).1 == StruckFor(0, 2)
  {
    var s' := Apply(cfg, s, StrikeAt(C, now)).0;
    var added := [C] + s.order;
    assert added[..2] == [C, kept] && added[2] == gone;
    assert s'.order == [C, kept] && gone !in s'.entries && kept in s'.entries && s'.entries[kept] == s.entries[kept];
    StrikesNext(cfg, s', gone, kept, now);
  }

  lemma StrikesNext(cfg: Config, s: State, gone: Address, kept: Address, now: int)
    requires cfg.freeStrikes == 2 && cfg.maxTrackedAddrs == 2 && cfg.strikeResetAfter >= now
    requires s.order == [C, kept] && gone !in s.entries && gone != kept && gone != C
    requires kept in s.entries && s.entries[kept].strikes == 1 && 0 < s.entries[kept].lastStrike <= now
    ensures Apply(cfg, s, StrikeAt(gone, now)).1 == StruckFor(0, 1)
    ensures Apply(cfg, s, StrikeAt(kept, now)).1 == StruckFor(0, 2)
  {
    var added := [gone] + s.order;
    assert added[2] == kept && gone in GetOrCreate(cfg, s, gone).entries;
  }

  /** With a bound a question does show: it keeps `a` from being evicted, and so its strike from being forgotten. */
  lemma QuestionsShowWithABound()
    ensures var before, after := [StrikeAt(A, 1), StrikeAt(B, 2)], [StrikeAt(C, 3)];
      && Apply(TWO_TRACKED, Run(TWO_TRACKED, before + after).0, StrikeAt(A, 3)).1 == StruckFor(0, 1)
      && Apply(TWO_TRACKED, Run(TWO_TRACKED, before + [Ask(A, 3)] + after).0, StrikeAt(A, 3)).1 == StruckFor(0, 2)
  {
    var before, ask, c3 := [StrikeAt(A, 1), StrikeAt(B, 2)], Ask(A, 3), StrikeAt(C, 3);
    AfterBoth(TWO_TRACKED);
    RunSnoc(TWO_TRACKED, before, c3);
    RunSnoc(TWO_TRACKED, before, ask);
    RunSnoc(TWO_TRACKED, before + [ask], c3);
    hide Run, StrikeTimes, Struck;
    ThirdEvicts(TWO_TRACKED, BOTH, 3, A, B);
    var asked := Apply(TWO_TRACKED, BOTH, ask).0;
    assert asked.entries == BOTH.entries && asked.order == [A, B] by { MovedBehind(); }
    ThirdEvicts(TWO_TRACKED, asked, 3, B, A);
  }

  lemma MovedBehind()
    ensures MovedToFront([B, A], A) == [A, B]
  {
    assert [B, A][1..] == [A] && [A][1..] == [];
    assert Without([A], A) == [];
    assert Without([B, A], A) == [B];
  }

  // ── The order of the list ──

  /** The position of the latest operation about an address, -1 if there is none. */
  function LastUse(ops: seq<Op>, addr: Address): int {
    if ops == [] then -1
    else
      var last := ops[|ops| - 1];
      if !last.Sweep? && last.addr == addr then |ops| - 1 else LastUse(ops[..|ops| - 1], addr)
  }

  ghost predicate ByUse(ops: seq<Op>, order: seq<Address>) {
    && (forall i :: 0 <= i < |order| ==> LastUse(ops, order[i]) >= 0)
    && forall i, j :: 0 <= i < j < |order| ==> LastUse(ops, order[i]) > LastUse(ops, order[j])
  }

  lemma {:induction false} UsesAreInThePast(ops: seq<Op>, addr: Address)
    ensures LastUse(ops, addr) < |ops|
  {
    if ops != [] { UsesAreInThePast(ops[..|ops| - 1], addr); }
  }

  lemma ByUseCons(ops: seq<Op>, first: Address, rest: seq<Address>)
    requires ByUse(ops, rest) && LastUse(ops, first) >= 0
    requires forall a :: a in rest ==> LastUse(ops, first) > LastUse(ops, a)
    ensures ByUse(ops, [first] + rest)
  {
    hide LastUse;
    assert forall j :: 0 <= j < |rest| ==> rest[j] in rest;
  }

  lemma ByUseTail(ops: seq<Op>, order: seq<Address>)
    requires order != [] && ByUse(ops, order)
    ensures LastUse(ops, order[0]) >= 0 && ByUse(ops, order[1..])
    ensures forall a :: a in order[1..] ==> LastUse(ops, order[0]) > LastUse(ops, a)
  {
    hide LastUse;
  }

  lemma {:induction false} WithoutIsByUse(ops: seq<Op>, order: seq<Address>, addr: Address)
    requires ByUse(ops, order)
    ensures ByUse(ops, Without(order, addr))
    decreases order
  {
    hide LastUse, ByUse;
    if order != [] {
      ByUseTail(ops, order);
      WithoutIsByUse(ops, order[1..], addr);
      WithoutHolds(order[1..], addr);
      ByUseCons(ops, order[0], Without(order[1..], addr));
    }
  }

  lemma {:induction false} SurvivorsAreByUse(cfg: Config, s: State, ops: seq<Op>, order: seq<Address>, now: int)
    requires ByUse(ops, order) && NoDuplicates(order)
    ensures ByUse(ops, Survivors(cfg, s, order, now))
    decreases order
  {
    hide LastUse, ByUse;
    if order != [] {
      ByUseTail(ops, order);
      SurvivorsAreByUse(cfg, s, ops, order[1..], now);
      SurvivorsAre(cfg, s, order[1..], now);
      ByUseCons(ops, order[0], Survivors(cfg, s, order[1..], now));
    }
  }

  lemma UseByNow(ops: seq<Op>, op: Op, order: seq<Address>)
    requires ByUse(ops, order)
    requires op.Sweep? || op.addr !in order
    ensures ByUse(ops + [op], order)
    ensures !op.Sweep? ==> ByUse(ops + [op], [op.addr] + order)
  {
    assert (ops + [op])[..|ops|] == ops;
    forall i | 0 <= i < |order| ensures LastUse(ops + [op], order[i]) == LastUse(ops, order[i]) < |ops| {
      assert order[i] in order;
      UsesAreInThePast(ops, order[i]);
    }
  }

  /**
   After every operation the map and the list hold the same addresses, each once, at most
   as many as the bound, and the list is in order of last use, the latest first. So what
   is evicted is the address used longest ago, and a sweep keeps the order of the rest.
   */
  lemma {:induction false} ListIsByLastUse(cfg: Config, ops: seq<Op>)
    ensures var s := Run(cfg, ops).0;
      && Consistent(s)
      && (cfg.maxTrackedAddrs > 0 ==> |s.order| <= cfg.maxTrackedAddrs)
      && ByUse(ops, s.order)
  {
    hide Apply, ByUse;
    RunIsConsistent(cfg, ops);
    if ops == [] {
      NothingUsed();
    } else {
      var before, op := ops[..|ops| - 1], ops[|ops| - 1];
      ListIsByLastUse(cfg, before);
      RunIsConsistent(cfg, before);
      StepKeepsOrder(cfg, Run(cfg, before).0, before, op);
      assert before + [op] == ops;
    }
  }

  lemma NothingUsed()
    ensures ByUse([], [])
  {
  }

  lemma StepKeepsOrder(cfg: Config, s: State, ops: seq<Op>, op: Op)
    requires Consistent(s) && ByUse(ops, s.order)
    requires cfg.maxTrackedAddrs > 0 ==> |s.order| <= cfg.maxTrackedAddrs
    ensures var s' := Apply(cfg, s, op).0;
      && (cfg.maxTrackedAddrs > 0 ==> |s'.order| <= cfg.maxTrackedAddrs)
      && ByUse(ops + [op], s'.order)
  {
    hide ByUse, Expired, Struck, NoDuplicates;
    if op.Sweep? {
      assert s.order[0..] == s.order;
      var kept := Survivors(cfg, s, s.order, op.now);
      assert s.order[..0] + kept == kept;
      SurvivorsAreByUse(cfg, s, ops, s.order, op.now);
      SurvivorsFit(cfg, s, s.order, op.now);
      UseByNow(ops, op, Apply(cfg, s, op).0.order);
    } else if op.addr in s.entries {
      WithoutIsByUse(ops, s.order, op.addr);
      WithoutHolds(s.order, op.addr);
      UseByNow(ops, op, Without(s.order, op.addr));
    } else {
      UseByNow(ops, op, s.order);
      ByUsePrefix(ops + [op], [op.addr] + s.order);
    }
  }

  lemma {:induction false} SurvivorsFit(cfg: Config, s: State, order: seq<Address>, now: int)
    ensures |Survivors(cfg, s, order, now)| <= |order|
  {
    if order != [] { SurvivorsFit(cfg, s, order[1..], now); }
  }

  lemma ByUsePrefix(ops: seq<Op>, order: seq<Address>)
    requires order != [] && ByUse(ops, order)
    ensures ByUse(ops, order[..|order| - 1])
  {
  }

  /** A strike at a new address evicts at most the one used longest ago, and never the address it strikes. */
  lemma EvictedIsLeastRecentlyUsed(cfg: Config, ops: seq<Op>, op: Op, victim: Address, other: Address)
    requires op.StrikeAt?
    requires victim in Run(cfg, ops).0.entries && victim !in Run(cfg, ops + [op]).0.entries
    ensures op.addr in Run(cfg, ops + [op]).0.entries && victim != op.addr
    ensures other in Run(cfg, ops).0.entries && other != victim ==>
      LastUse(ops, victim) < LastUse(ops, other) && other in Run(cfg, ops + [op]).0.entries
  {
    var s := Run(cfg, ops).0;
    ListIsByLastUse(cfg, ops);
    hide Run;
    RunSnoc(cfg, ops, op);
    CreatingEntries(cfg, s, op.addr, victim);
    CreatingEntries(cfg, s, op.addr, other);
    if other in s.entries {
      var i :| 0 <= i < |s.order| && s.order[i] == other;
    }
  }
}
