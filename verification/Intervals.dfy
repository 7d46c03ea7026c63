/**
 A callback that runs again and again, a fixed time after it last ended, until it is
 stopped. The critical sections of its timer goroutine and of `Stop` are one step each.
 */
module Intervals {
  import opened NativeTypes

  /** Where the timer's goroutine is: not running, about to look whether it may run, let through, or in the callback. */
  datatype Phase = Waiting | Woken | LetThrough | InCallback

  datatype Interval = Interval(stopped: bool, timer: Option<int>, phase: Phase)

  datatype Event = Fire(now: int) | Look(now: int) | Begin(now: int) | End(now: int) | Stop(now: int)

  function Started(delay: int, now: int): Interval {
    Interval(false, Some(now + delay), Waiting)
  }

  /** What can happen: a timer fires when it is due, and a goroutine takes its steps in order. */
  predicate Can(i: Interval, e: Event) {
    match e
    case Fire(now) => i.timer.Some? && i.timer.value <= now
    case Look(_) => i.phase == Woken
    case Begin(_) => i.phase == LetThrough
    case End(_) => i.phase == InCallback
    case Stop(_) => true
  }

  function Step(delay: int, i: Interval, e: Event): Interval {
    match e
    case Fire(_) => i.(timer := None, phase := Woken)
    case Look(_) => i.(phase := if i.stopped then Waiting else LetThrough)
    case Begin(_) => i.(phase := InCallback)
    case End(now) => i.(phase := Waiting, timer := if i.stopped then i.timer else Some(now + delay))
    case Stop(_) => i.(stopped := true, timer := None)
  }

  function After(delay: int, i: Interval, events: seq<Event>): Interval {
    if events == [] then i else Step(delay, After(delay, i, events[..|events| - 1]), events[|events| - 1])
  }

  predicate Possible(delay: int, i: Interval, events: seq<Event>) {
    events == [] ||
    var before, last := events[..|events| - 1], events[|events| - 1];
    Possible(delay, i, before) && Can(After(delay, i, before), last)
  }

  /** The times at which callbacks begin. */
  function BeginTimes(events: seq<Event>): seq<int> {
    if events == [] then []
    else BeginTimes(events[..|events| - 1]) + (if events[|events| - 1].Begin? then [events[|events| - 1].now] else [])
  }

  class Handle {
    const delay: int
    var stopped: bool
    var timer: Option<int>
    ghost var phase: Phase

    ghost function Value(): Interval
      reads this
    {
      Interval(stopped, timer, phase)
    }

    constructor (delay: int, now: int)
      ensures this.delay == delay && Value() == Started(delay, now)
    {
      this.delay, stopped, timer, phase := delay, false, Some(now + delay), Waiting;
    }

    /** The first critical section of the goroutine: whether the callback may run. */
    method MayRun() returns (ok: bool)
      requires Can(Value(), Look(0))
      modifies this
      ensures Value() == Step(delay, old(Value()), Look(0)) && (ok <==> phase == LetThrough)
    {
      if stopped {
        phase := Waiting;
        return false;
      }
      phase := LetThrough;
      return true;
    }

    /** The second one, after the callback. */
    method Rearm(now: int)
      requires Can(Value(), End(now))
      modifies this
      ensures Value() == Step(delay, old(Value()), End(now))
    {
      if !stopped { timer := Some(now + delay); }
      phase := Waiting;
    }

    /** Stops the interval; says whether this call did, before the timer fired. */
    method StopIt() returns (did: bool)
      requires OneAtATime(Value())
      modifies this
      ensures Value() == Step(delay, old(Value()), Stop(0))
      ensures did <==> old(!stopped && timer.Some?)
    {
      if stopped { return false; }
      stopped := true;
      did := timer.Some?;
      timer := None;
    }
  }

  /** A timer is set only when no goroutine runs, and never after a stop. */
  predicate OneAtATime(i: Interval) {
    && (i.timer.Some? ==> i.phase == Waiting)
    && (i.stopped ==> i.timer.None?)
  }

  lemma {:induction false} NeverTwoAtOnce(delay: int, i: Interval, events: seq<Event>)
    requires OneAtATime(i) && Possible(delay, i, events)
    ensures OneAtATime(After(delay, i, events))
  {
    if events == [] {
    } else {
      NeverTwoAtOnce(delay, i, events[..|events| - 1]);
    }
  }

  /**
   After a stop at most one callback still begins, and only if its goroutine had been let
   through before; and no timer is set any more.
   */
  lemma {:induction false} AtMostOneAfterStop(delay: int, i: Interval, events: seq<Event>)
    requires OneAtATime(i) && i.stopped && Possible(delay, i, events)
    ensures var i' := After(delay, i, events);
      && i'.stopped && i'.timer.None?
      && |BeginTimes(events)| + (if i'.phase == LetThrough then 1 else 0) <= (if i.phase == LetThrough then 1 else 0)
  {
    if events == [] {
    } else {
      AtMostOneAfterStop(delay, i, events[..|events| - 1]);
    }
  }

  // ── On time ──

  function Clock(start: int, events: seq<Event>): int {
    if events == [] then start else events[|events| - 1].now
  }

  /** A timer that is set fires when it is due and not later, and what the goroutine does takes no time. */
  predicate OnTime(i: Interval, clock: int, e: Event) {
    match e
    case Fire(now) => i.timer == Some(now)
    case Stop(now) => Passes(i, clock, now)
    case _ => e.now == clock
  }

  /** Time can pass from `clock` to `now` with nothing due before. */
  predicate Passes(i: Interval, clock: int, now: int) {
    clock <= now && (i.timer.Some? ==> now <= i.timer.value) && (i.phase != Waiting ==> now == clock)
  }

  predicate Punctual(delay: int, i: Interval, start: int, events: seq<Event>) {
    events == [] ||
    var before, last := events[..|events| - 1], events[|events| - 1];
    Punctual(delay, i, start, before) && OnTime(After(delay, i, before), Clock(start, before), last)
  }

  /** When the next callback begins, if one does. */
  function NextBegin(delay: int, i: Interval, clock: int): int {
    match i.phase
    case Waiting => if i.timer.Some? then i.timer.value else clock
    case InCallback => clock + delay
    case _ => clock
  }

  /** Nothing is due before now, and the next callback within the delay. */
  predicate InTime(delay: int, i: Interval, clock: int) {
    && OneAtATime(i) && (!i.stopped && i.phase == Waiting ==> i.timer.Some?)
    && clock <= NextBegin(delay, i, clock) <= clock + delay
  }

  lemma StaysInTime(delay: int, i: Interval, clock: int, e: Event)
    requires delay >= 0 && InTime(delay, i, clock) && Can(i, e) && OnTime(i, clock, e)
    ensures clock <= e.now && InTime(delay, Step(delay, i, e), e.now)
    ensures var i' := Step(delay, i, e);
      i'.timer.Some? || i'.phase != Waiting ==>
        NextBegin(delay, i', e.now) == NextBegin(delay, i, clock) + (if e.Begin? then delay else 0)
    ensures e.Begin? ==> e.now == NextBegin(delay, i, clock)
  {
  }

  /**
   In every run in which timers fire when they are due and callbacks take no time, the k-th
   callback begins exactly k + 1 delays after the start.
   */
  lemma {:induction false} RegularRounds(delay: int, start: int, events: seq<Event>)
    requires delay >= 0
    requires Possible(delay, Started(delay, start), events) && Punctual(delay, Started(delay, start), start, events)
    ensures forall k :: 0 <= k < |BeginTimes(events)| ==> BeginTimes(events)[k] == start + (k + 1) * delay
    ensures var i, clock := After(delay, Started(delay, start), events), Clock(start, events);
      && InTime(delay, i, clock)
      && (i.timer.Some? || i.phase != Waiting ==> NextBegin(delay, i, clock) == start + (|BeginTimes(events)| + 1) * delay)
  {
    if events == [] {
    } else {
      var before, last := events[..|events| - 1], events[|events| - 1];
      RegularRounds(delay, start, before);
      var i := After(delay, Started(delay, start), before);
      StaysInTime(delay, i, Clock(start, before), last);
      var n := |BeginTimes(before)|;
      assert (n + 2) * delay == (n + 1) * delay + delay;
    }
  }
}
