/**
 The store of batons with its own timer: the sweeps are the callbacks of an interval of half
 the time to live, started with the server, and requests come in between.
 */
module HttpTimers {
  import opened NativeTypes
  import Intervals
  import opened HttpStreams
  import opened HttpTheorems
  import opened HttpRuns
  import HttpLaws
  import Pipelines

  /** Something happens to the timer, or a request is handled. */
  datatype Happening = Timer(event: Intervals.Event) | Request(op: Op)

  datatype Moment = Moment(interval: Intervals.Interval, clock: int)

  function Next(delay: int, m: Moment, h: Happening): Moment {
    match h
    case Timer(e) => Moment(Intervals.Step(delay, m.interval, e), e.now)
    case Request(op) => m.(clock := if op.Shutdown? then m.clock else Time(op))
  }

  /**
   The timer does what it can, when it is due and in no time, and is not stopped; requests
   come when nothing is due before.
   */
  predicate CanHappen(m: Moment, h: Happening) {
    match h
    case Timer(e) => !e.Stop? && Intervals.Can(m.interval, e) && Intervals.OnTime(m.interval, m.clock, e)
    case Request(op) => (op.Pipeline? || op.Cursor?) && Intervals.Passes(m.interval, m.clock, op.head.now)
  }

  function AfterAll(delay: int, m: Moment, hs: seq<Happening>): Moment {
    if hs == [] then m else Next(delay, AfterAll(delay, m, hs[..|hs| - 1]), hs[|hs| - 1])
  }

  predicate Timeline(delay: int, m: Moment, hs: seq<Happening>) {
    hs == [] ||
    var before, last := hs[..|hs| - 1], hs[|hs| - 1];
    Timeline(delay, m, before) && CanHappen(AfterAll(delay, m, before), last)
  }

  /** What the store sees: a sweep when a callback begins, and the requests. */
  function OpsOf(h: Happening): seq<Op> {
    match h
    case Timer(e) => if e.Begin? then [Sweep(e.now)] else []
    case Request(op) => [op]
  }

  function Ops(hs: seq<Happening>): seq<Op> {
    if hs == [] then [] else Ops(hs[..|hs| - 1]) + OpsOf(hs[|hs| - 1])
  }

  /** The timer runs, nothing is due before now, and the next sweep comes within the delay. */
  predicate Ticking(delay: int, m: Moment) {
    !m.interval.stopped && Intervals.InTime(delay, m.interval, m.clock)
  }

  lemma ScheduleGoesOn(ops: seq<Op>, op: Op, start: int, first: int, delay: int)
    requires OnSchedule(ops, start, first, delay) && !op.Shutdown?
    requires Clock(ops, start) <= Time(op) <= Due(ops, first, delay)
    requires op.Sweep? ==> Time(op) == Due(ops, first, delay)
    ensures OnSchedule(ops + [op], start, first, delay) && Clock(ops + [op], start) == Time(op)
    ensures Due(ops + [op], first, delay) == Due(ops, first, delay) + (if op.Sweep? then delay else 0)
  {
    assert (ops + [op])[..|ops|] == ops && (ops + [op])[|ops|] == op;
  }

  /** The operations so far are on schedule, and the next sweep is the one the schedule wants. */
  predicate Scheduled(delay: int, start: int, first: int, ops: seq<Op>, now: Moment) {
    && Ticking(delay, now)
    && OnSchedule(ops, start, first, delay)
    && Due(ops, first, delay) == Intervals.NextBegin(delay, now.interval, now.clock)
    && Clock(ops, start) <= now.clock
  }

  lemma StaysScheduled(delay: int, start: int, first: int, ops: seq<Op>, now: Moment, h: Happening)
    requires delay >= 0 && Scheduled(delay, start, first, ops, now) && CanHappen(now, h)
    ensures Scheduled(delay, start, first, ops + OpsOf(h), Next(delay, now, h))
  {
    hide OnSchedule, Clock, Due;
    match h
    case Timer(e) =>
      Intervals.StaysInTime(delay, now.interval, now.clock, e);
      if e.Begin? { ScheduleGoesOn(ops, Sweep(e.now), start, first, delay); }
      assert ops + [] == ops;
    case Request(op) => ScheduleGoesOn(ops, op, start, first, delay);
  }

  /** Whatever happens, the sweeps of a ticking timer are on schedule. */
  lemma {:induction false} SweepsAreOnSchedule(delay: int, m: Moment, hs: seq<Happening>)
    requires delay >= 0 && Ticking(delay, m) && Timeline(delay, m, hs)
    ensures Scheduled(delay, m.clock, Intervals.NextBegin(delay, m.interval, m.clock), Ops(hs), AfterAll(delay, m, hs))
  {
    if hs == [] {
      NothingHappens(delay, m);
    } else {
      hide Scheduled, Ticking, CanHappen, Next, OpsOf, AfterAll, Timeline, Ops;
      var before, last := hs[..|hs| - 1], hs[|hs| - 1];
      assert before + [last] == hs;
      OneMore(delay, m, before, last);
      SweepsAreOnSchedule(delay, m, before);
      var next := Intervals.NextBegin(delay, m.interval, m.clock);
      StaysScheduled(delay, m.clock, next, Ops(before), AfterAll(delay, m, before), last);
    }
  }

  /** A timeline can be cut: what comes after is a timeline from where the first part ends. */
  lemma {:induction false} TimelineInTurn(delay: int, m: Moment, hs: seq<Happening>, n: nat)
    requires n <= |hs| && Timeline(delay, m, hs)
    ensures Timeline(delay, m, hs[..n])
    ensures Timeline(delay, AfterAll(delay, m, hs[..n]), hs[n..])
    ensures AfterAll(delay, m, hs) == AfterAll(delay, AfterAll(delay, m, hs[..n]), hs[n..])
    ensures Ops(hs) == Ops(hs[..n]) + Ops(hs[n..])
    decreases |hs|
  {
    hide AfterAll, Timeline, Ops, CanHappen, Next, OpsOf;
    if n == |hs| {
      assert hs[..n] == hs && hs[n..] == [];
      NothingHappens(delay, AfterAll(delay, m, hs));
      assert Ops(hs) + [] == Ops(hs);
    } else {
      var before, last, rest := hs[..|hs| - 1], hs[|hs| - 1], hs[n..|hs| - 1];
      assert before + [last] == hs && before[..n] == hs[..n] && before[n..] == rest && hs[n..] == rest + [last];
      OneMore(delay, m, before, last);
      TimelineInTurn(delay, m, before, n);
      OneMore(delay, AfterAll(delay, m, hs[..n]), rest, last);
      assert Ops(hs[..n]) + (Ops(rest) + OpsOf(last)) == Ops(hs[..n]) + Ops(rest) + OpsOf(last);
    }
  }

  lemma NothingHappens(delay: int, m: Moment)
    ensures AfterAll(delay, m, []) == m && Timeline(delay, m, []) && Ops([]) == []
  {
  }

  lemma OneMore(delay: int, m: Moment, hs: seq<Happening>, h: Happening)
    ensures AfterAll(delay, m, hs + [h]) == Next(delay, AfterAll(delay, m, hs), h)
    ensures Ops(hs + [h]) == Ops(hs) + OpsOf(h)
    ensures Timeline(delay, m, hs + [h]) <==> Timeline(delay, m, hs) && CanHappen(AfterAll(delay, m, hs), h)
  {
    hide CanHappen, Next, OpsOf;
    assert (hs + [h])[..|hs|] == hs;
  }

  lemma {:induction false} FromRun<S>(conn: nat -> Env<S>, ttl: int, state: S, a: seq<Op>, b: seq<Op>)
    ensures From(conn, ttl, Run(conn, ttl, state, a), b) == Run(conn, ttl, state, a + b)
  {
    hide Apply;
    if b == [] {
      assert a + b == a;
    } else {
      FromRun(conn, ttl, state, a, b[..|b| - 1]);
      assert (a + b)[..|a + b| - 1] == a + b[..|b| - 1];
    }
  }

  lemma {:induction false} DistinctIsAllNew<S>(conn: nat -> Env<S>, ttl: int, state: S, a: seq<Op>, b: seq<Op>)
    requires Distinct(a + b)
    ensures AllNew(conn, ttl, Run(conn, ttl, state, a), b)
  {
    hide Apply;
    if b == [] {
    } else {
      var init, last := b[..|b| - 1], b[|b| - 1];
      assert a + b == (a + init) + [last];
      DistinctBefore(a + init, last);
      DistinctIsAllNew(conn, ttl, state, a, init);
      NextIsNew(conn, ttl, state, a + init, last);
      FromRun(conn, ttl, state, a, init);
    }
  }

  lemma DistinctPart(a: seq<Op>, b: seq<Op>)
    requires Distinct(a + b)
    ensures Distinct(a)
  {
    assert forall k :: 0 <= k < |a| ==> (a + b)[k] == a[k];
  }

  /** The timer as the server starts it, and its clock. */
  function AtStart(ttl: int, start: int): Moment {
    Moment(Intervals.Started(ttl / 2, start), start)
  }

  /**
   From the start of the server, with nothing assumed of the sweeps but that timers fire when
   they are due and take no time: a stream that is used for the last time when n things have
   happened is closed strictly after its time to live and no later than half of it more.
   */
  lemma AbandonedStreamIsClosedInTime<S>(
    conn: nat -> Env<S>, ttl: int, state: S, start: int, hs: seq<Happening>, n: nat, b: Baton) returns (closedBy: nat)
    requires ttl >= 2 && n <= |hs| && Timeline(ttl / 2, AtStart(ttl, start), hs) && Distinct(Ops(hs))
    requires var s := Run(conn, ttl, state, Ops(hs[..n]));
      && b in s.entries && s.entries[b].stream < |s.streams| && !s.streams[s.entries[b].stream].closed
      && s.entries[b].lastSeen == AfterAll(ttl / 2, AtStart(ttl, start), hs[..n]).clock
    requires forall op :: op in Ops(hs[n..]) ==> LeavesAlone(op, b)
    ensures var e := Run(conn, ttl, state, Ops(hs[..n])).entries[b];
      var s', due := Run(conn, ttl, state, Ops(hs)), e.lastSeen + ttl + ttl / 2;
      && e.stream < |s'.streams|
      && (b in s'.entries ==> !s'.streams[e.stream].closed && AfterAll(ttl / 2, AtStart(ttl, start), hs).clock <= due)
      && (b !in s'.entries ==> s'.streams[e.stream].closed && closedBy < |Ops(hs[n..])| && Ops(hs[n..])[closedBy].Sweep?
                               && e.lastSeen + ttl < Ops(hs[n..])[closedBy].now <= due)
  {
    hide Run, From, AllNew, OnSchedule, AfterAll, Timeline, Ops, Sound, Distinct;
    var delay, m := ttl / 2, AtStart(ttl, start);
    var a, rest := Ops(hs[..n]), Ops(hs[n..]);
    var s, mid := Run(conn, ttl, state, a), AfterAll(delay, m, hs[..n]);
    TimelineInTurn(delay, m, hs, n);
    SweepsAreOnSchedule(delay, m, hs[..n]);
    SweepsAreOnSchedule(delay, mid, hs[n..]);
    ServerAtTheCut(conn, ttl, state, a, rest);
    hide Ticking, Next, Clock, Due;
    assert forall k :: 0 <= k < |rest| ==> LeavesAlone(rest[k], b);
    closedBy := IdleStreamIsClosedInTime(conn, ttl, s, b, Intervals.NextBegin(delay, mid.interval, mid.clock), rest);
  }

  /** The request kept its stream, open, and had the baton generated for it. */
  predicate Keeps<S>(s: Server<S>, op: Op, i: nat, b: Baton) {
    && HttpLaws.IsRequest(op) && op.head.generated == Some(b)
    && HttpLaws.IsAbout(s, op.head, i) && !HttpLaws.FoundAs(s, op.head, i).closed
    && (op.Pipeline? ==> Pipelines.Close !in op.requests)
  }

  lemma KeptIsStored<S>(conn: nat -> Env<S>, ttl: int, s: Server<S>, op: Op, i: nat, b: Baton)
    requires InRange(s) && Keeps(s, op, i, b)
    ensures var s' := Apply(conn, ttl, s, op).0;
      b in s'.entries && s'.entries[b] == BatonEntry(i, op.head.now) && i < |s'.streams| && !s'.streams[i].closed
  {
    var st := HttpLaws.FoundAs(s, op.head, i);
    match op
    case Pipeline(head, requests) =>
      HttpLaws.PipelineLeaves(conn, s, head, requests, i);
      Pipelines.ClosedByAClose(conn(i).(readonly := st.readonly), Pipelines.Here(s.state, st.stored), requests, false);
      hide HandlePipeline, Pipelines.RunRequests;
    case Cursor(head, steps, headerSent) =>
      HttpLaws.CursorLeaves(conn, s, head, steps, headerSent, i);
      hide HandleCursor;
  }

  /**
   So, from its last request on: a stream that request number n kept, and that is abandoned
   then, is closed strictly after its time to live, counted from that request, and no later
   than half of it more.
   */
  lemma LastRequestStartsTheClock<S>(
    conn: nat -> Env<S>, ttl: int, state: S, start: int, hs: seq<Happening>, n: nat, i: nat, b: Baton)
    returns (closedBy: nat)
    requires ttl >= 2 && 1 <= n <= |hs| && Timeline(ttl / 2, AtStart(ttl, start), hs) && Distinct(Ops(hs))
    requires hs[n - 1].Request? && Keeps(Run(conn, ttl, state, Ops(hs[..n - 1])), hs[n - 1].op, i, b)
    requires forall op :: op in Ops(hs[n..]) ==> LeavesAlone(op, b)
    ensures var s' := Run(conn, ttl, state, Ops(hs));
      var used := hs[n - 1].op.head.now;
      && i < |s'.streams|
      && (b in s'.entries ==>
            !s'.streams[i].closed && AfterAll(ttl / 2, AtStart(ttl, start), hs).clock <= used + ttl + ttl / 2)
      && (b !in s'.entries ==> s'.streams[i].closed && closedBy < |Ops(hs[n..])| && Ops(hs[n..])[closedBy].Sweep?
                               && used + ttl < Ops(hs[n..])[closedBy].now <= used + ttl + ttl / 2)
  {
    hide AfterAll, Timeline, Ops, Distinct, Run, Keeps;
    var delay, m, before, op := ttl / 2, AtStart(ttl, start), hs[..n - 1], hs[n - 1].op;
    assert hs[..n] == before + [hs[n - 1]];
    OneMore(delay, m, before, hs[n - 1]);
    TimelineInTurn(delay, m, hs, n);
    RunOneMore(conn, ttl, state, Ops(before), op);
    DistinctPart(Ops(hs[..n]), Ops(hs[n..]));
    DistinctPart(Ops(before), [op]);
    SoundAfter(conn, ttl, state, Ops(before));
    assert InRange(Run(conn, ttl, state, Ops(before)));
    KeptIsStored(conn, ttl, Run(conn, ttl, state, Ops(before)), op, i, b);
    hide Apply, Sound;
    closedBy := AbandonedStreamIsClosedInTime(conn, ttl, state, start, hs, n, b);
  }

  lemma RunOneMore<S>(conn: nat -> Env<S>, ttl: int, state: S, ops: seq<Op>, op: Op)
    ensures Run(conn, ttl, state, ops + [op]) == Apply(conn, ttl, Run(conn, ttl, state, ops), op).0
  {
    hide Apply;
    assert (ops + [op])[..|ops|] == ops;
  }

  lemma ServerAtTheCut<S>(conn: nat -> Env<S>, ttl: int, state: S, a: seq<Op>, b: seq<Op>)
    requires Distinct(a + b)
    ensures Sound(Run(conn, ttl, state, a)) && AllNew(conn, ttl, Run(conn, ttl, state, a), b)
    ensures From(conn, ttl, Run(conn, ttl, state, a), b) == Run(conn, ttl, state, a + b)
  {
    hide Run, From, AllNew, Sound;
    DistinctPart(a, b);
    SoundAfter(conn, ttl, state, a);
    DistinctIsAllNew(conn, ttl, state, a, b);
    FromRun(conn, ttl, state, a, b);
  }
}
