/**
 Runs of requests over HTTP: accounts over whole runs, batons that are spent for good,
 the time in which an idle stream is closed, and a pipeline cut in two by a rotation.
 */
module HttpRuns {
  import opened NativeTypes
  import Executor
  import Pipelines
  import opened HttpStreams
  import opened HttpTheorems

  function Empty<S>(state: S): Server<S> {
    Server(state, [], map[])
  }

  /** The server after a run from an empty store. */
  function Run<S>(conn: nat -> Env<S>, ttl: int, state: S, ops: seq<Op>): Server<S> {
    if ops == [] then Empty(state)
    else Apply(conn, ttl, Run(conn, ttl, state, ops[..|ops| - 1]), ops[|ops| - 1]).0
  }

  /** No baton is generated twice. */
  predicate Distinct(ops: seq<Op>) {
    forall i, j :: 0 <= i < j < |ops| && Generated(ops[i]).Some? ==> Generated(ops[i]) != Generated(ops[j])
  }

  // ── Batons ──

  /** A stored baton was stored before, or has just been generated. */
  lemma StoredOrGenerated<S>(conn: nat -> Env<S>, ttl: int, s: Server<S>, op: Op, b: Baton)
    ensures b in Apply(conn, ttl, s, op).0.entries ==> b in s.entries || Generated(op) == Some(b)
  {
    hide EnvOf, Pipelines.RunPipeline, Executor.RunCursor;
  }

  lemma {:induction false} StoredWasGenerated<S>(conn: nat -> Env<S>, ttl: int, state: S, ops: seq<Op>, b: Baton)
    ensures b in Run(conn, ttl, state, ops).entries ==> exists k :: 0 <= k < |ops| && Generated(ops[k]) == Some(b)
  {
    hide Apply;
    if ops != [] && b in Run(conn, ttl, state, ops).entries {
      var before, last := ops[..|ops| - 1], ops[|ops| - 1];
      StoredWasGenerated(conn, ttl, state, before, b);
      StoredOrGenerated(conn, ttl, Run(conn, ttl, state, before), last, b);
      if b in Run(conn, ttl, state, before).entries {
        var k :| 0 <= k < |before| && Generated(before[k]) == Some(b);
        assert Generated(ops[k]) == Some(b);
      } else {
        assert Generated(ops[|ops| - 1]) == Some(b);
      }
    }
  }

  /** In a run that generates no baton twice, the next one generated is new. */
  lemma NextIsNew<S>(conn: nat -> Env<S>, ttl: int, state: S, ops: seq<Op>, op: Op)
    requires Distinct(ops + [op])
    ensures NewBaton(Run(conn, ttl, state, ops), op)
  {
    hide Run;
    if Generated(op).Some? {
      var b := Generated(op).value;
      StoredWasGenerated(conn, ttl, state, ops, b);
      var all := ops + [op];
      forall k | 0 <= k < |ops| ensures Generated(ops[k]) != Some(b) {
        assert all[k] == ops[k] && all[|ops|] == op;
      }
    }
  }

  lemma DistinctBefore(ops: seq<Op>, op: Op)
    requires Distinct(ops + [op])
    ensures Distinct(ops)
  {
    assert forall k :: 0 <= k < |ops| ==> (ops + [op])[k] == ops[k];
  }

  /** Whether some request of a run leaves a closed stream stored. */
  predicate SomeLeft<S>(conn: nat -> Env<S>, ttl: int, state: S, ops: seq<Op>) {
    exists k :: 0 <= k < |ops| && LeavesClosedStored(Run(conn, ttl, state, ops[..k]), ops[k])
  }

  /**
   After any run every open stream is stored under exactly one baton; and if no request came
   to the point of having a valid baton and failing to generate the next, every stored stream
   is open and the connections opened less those closed are exactly the stored batons.
   */
  lemma {:induction false} EveryConnectionIsAccountedFor<S>(conn: nat -> Env<S>, ttl: int, state: S, ops: seq<Op>)
    requires Distinct(ops)
    ensures var s := Run(conn, ttl, state, ops);
      && Sound(s)
      && |OpenStreams(s)| <= |s.entries|
      && (!SomeLeft(conn, ttl, state, ops) ==> Tidy(s) && |OpenStreams(s)| == |s.entries|)
  {
    var s := Run(conn, ttl, state, ops);
    SoundAfter(conn, ttl, state, ops);
    ConnectionsBalance(s);
  }

  lemma {:induction false} SoundAfter<S>(conn: nat -> Env<S>, ttl: int, state: S, ops: seq<Op>)
    requires Distinct(ops)
    ensures Sound(Run(conn, ttl, state, ops))
    ensures !SomeLeft(conn, ttl, state, ops) ==> StoredAreOpen(Run(conn, ttl, state, ops))
  {
    if ops != [] {
      var before, last := ops[..|ops| - 1], ops[|ops| - 1];
      assert before + [last] == ops;
      DistinctBefore(before, last);
      NextIsNew(conn, ttl, state, before, last);
      SoundAfter(conn, ttl, state, before);
      RequestsKeepSound(conn, ttl, Run(conn, ttl, state, before), last);
      LeftBefore(conn, ttl, state, before, last);
    }
  }

  lemma LeftBefore<S>(conn: nat -> Env<S>, ttl: int, state: S, ops: seq<Op>, op: Op)
    ensures SomeLeft(conn, ttl, state, ops + [op]) <==>
            SomeLeft(conn, ttl, state, ops) || LeavesClosedStored(Run(conn, ttl, state, ops), op)
  {
    hide LeavesClosedStored, Run;
    var all := ops + [op];
    assert forall k :: 0 <= k <= |ops| ==> all[..k] == ops[..k];
    assert ops[..|ops|] == ops && all[|ops|] == op;
    if SomeLeft(conn, ttl, state, ops) {
      var k :| 0 <= k < |ops| && LeavesClosedStored(Run(conn, ttl, state, ops[..k]), ops[k]);
      assert LeavesClosedStored(Run(conn, ttl, state, all[..k]), all[k]);
    }
    if LeavesClosedStored(Run(conn, ttl, state, ops), op) {
      assert LeavesClosedStored(Run(conn, ttl, state, all[..|ops|]), all[|ops|]);
    }
  }

  /** A stream is opened under a baton, and the next request under it cannot be given a new one. */
  function FailedRotation(b: Baton): seq<Op> {
    [Pipeline(Head(None, false, true, Some(b), 1), []), Cursor(Head(Some(b), false, true, None, 2), [], true)]
  }

  /** It does happen: after two requests on any database the store holds a closed stream under the baton of the first. */
  lemma ClosedStreamStaysStored<S>(conn: nat -> Env<S>, ttl: int, state: S, b: Baton)
    requires b.hex != ""
    ensures var s := Run(conn, ttl, state, FailedRotation(b));
      && SomeLeft(conn, ttl, state, FailedRotation(b))
      && b in s.entries && s.entries[b].stream == 0 && |s.streams| == 1 && s.streams[0].closed
      && |OpenStreams(s)| == 0 && |s.entries| == 1
  {
    var ops := FailedRotation(b);
    assert ops[..1] == [ops[0]] && ops[..1][..0] == [];
    assert Run(conn, ttl, state, []) == Empty(state);
    var first := Run(conn, ttl, state, ops[..1]);
    assert first.entries == map[b := BatonEntry(0, 1)] && first.streams == [HttpStream(false, false, map[])];
    assert LeavesClosedStored(first, ops[1]);
    var s := Run(conn, ttl, state, ops);
    assert OpenStreams(s) == {};
    assert s.entries.Keys == {b};
  }

  /** A request that is answered under a baton takes that baton out of the store. */
  lemma AnsweredBatonIsSpent<S>(conn: nat -> Env<S>, ttl: int, s: Server<S>, op: Op)
    requires (op.Pipeline? || op.Cursor?) && OldBaton(op.head).Some? && NewBaton(s, op)
    ensures var (s', reply) := Apply(conn, ttl, s, op);
      var b := OldBaton(op.head).value;
      && (reply.NotFound? <==> b !in s.entries)
      && (reply.PipelineReply? || reply.CursorReply? ==> b in s.entries && b !in s'.entries)
  {
    hide EnvOf, Pipelines.RunPipeline, Executor.RunCursor;
  }

  /** A baton that has left the store never resolves again. */
  lemma {:induction false} SpentBatonsStaySpent<S>(conn: nat -> Env<S>, ttl: int, state: S, ops: seq<Op>, k: nat, b: Baton)
    requires Distinct(ops) && k < |ops|
    requires b in Run(conn, ttl, state, ops[..k]).entries
    requires b !in Run(conn, ttl, state, ops[..k + 1]).entries
    ensures b !in Run(conn, ttl, state, ops).entries
    decreases |ops|
  {
    if k == |ops| - 1 {
      assert ops[..k + 1] == ops;
    } else {
      var before, last := ops[..|ops| - 1], ops[|ops| - 1];
      assert before + [last] == ops && before[..k] == ops[..k] && before[..k + 1] == ops[..k + 1];
      DistinctBefore(before, last);
      SpentBatonsStaySpent(conn, ttl, state, before, k, b);
      StoredOrGenerated(conn, ttl, Run(conn, ttl, state, before), last, b);
      StoredWasGenerated(conn, ttl, state, ops[..k], b);
      var j :| 0 <= j < k && Generated(ops[..k][j]) == Some(b);
      assert Generated(ops[j]) == Some(b) && ops[|ops| - 1] == last;
    }
  }

  // ── A pipeline cut by a rotation ──

  /**
   Sending requests in two pipelines, the second under the baton the first was answered with,
   does what sending them in one does: the same results, and the same server in the end.
   */
  lemma PipelineAcrossRotation<S>(conn: nat -> Env<S>, s: Server<S>, head: Head, a: seq<Pipelines.Request>,
                                  next: Head, b: seq<Pipelines.Request>)
    requires InRange(s) && Resolve(s, head).Got?
    requires head.generated.Some? && head.generated.value !in s.entries && head.generated.value.hex != ""
    requires next.baton == head.generated && next.generated.Some? && next.generated != head.generated
    requires OldBaton(head) != next.generated
    requires Pipelines.Close !in a
    ensures var (s1, first) := HandlePipeline(conn, s, head, a);
      var (s2, second) := HandlePipeline(conn, s1, next, b);
      var (t, whole) := HandlePipeline(conn, s, head.(generated := next.generated, now := next.now), a + b);
      && first.PipelineReply? && second.PipelineReply? && whole.PipelineReply?
      && first.baton == head.generated
      && whole.baton == second.baton
      && whole.results == first.results + second.results
      && t == s2
  {
    var r := Resolve(s, head);
    var prior, g := OldBaton(head), head.generated.value;
    var st := r.server.streams[r.stream];
    var env, h := EnvOf(conn, r.stream, st), Pipelines.Here(s.state, st.stored);
    Pipelines.PipelineCanBeCut(env, h, a, b);
    hide Pipelines.RunPipeline;
    var mid := Pipelines.RunPipeline(env, h, a).here;
    var end := Pipelines.RunPipeline(env, mid, b);
    assert Resolve(s, head.(generated := next.generated, now := next.now)).stream == r.stream;
    EntriesMeet(s.entries, prior, g, BatonEntry(r.stream, head.now), BatonEntry(r.stream, next.now));
    EntriesMeet(r.server.entries, prior, g, BatonEntry(r.stream, head.now), BatonEntry(r.stream, next.now));
    var s1 := HandlePipeline(conn, s, head, a).0;
    assert s1 == Put(Ran(r.server, r.stream, mid), r.stream, prior, g, head.now);
    var r1 := Resolve(s1, next);
    assert r1.Got? && r1.stream == r.stream && r1.server.streams[r.stream] == st.(stored := mid.stored);
    assert EnvOf(conn, r.stream, r1.server.streams[r.stream]) == env;
    assert RunOn(conn, r1.server, r.stream, b) == end;
    assert Ran(r1.server, r.stream, end.here).streams == Ran(r.server, r.stream, end.here).streams;
  }

  /** Exchanging a baton twice leaves of the first exchange nothing. */
  lemma EntriesMeet(entries: map<Baton, BatonEntry>, prior: Option<Baton>, g: Baton, e: BatonEntry, e': BatonEntry)
    requires g !in entries
    ensures var kept := if prior.Some? then entries - {prior.value} else entries;
      kept[g := e][g := e'] - {g} == kept
    ensures prior.Some? ==> entries[prior.value := e] - {prior.value} == entries - {prior.value}
    ensures prior.Some? ==> entries[prior.value := e'] - {prior.value} == entries - {prior.value}
  {
    var kept := if prior.Some? then entries - {prior.value} else entries;
    assert kept[g := e][g := e'] - {g} == kept;
    if prior.Some? {
      assert entries[prior.value := e] - {prior.value} == entries - {prior.value};
      assert entries[prior.value := e'] - {prior.value} == entries - {prior.value};
    }
  }

  // ── Idle streams ──

  function Due(ops: seq<Op>, first: int, interval: int): int {
    if ops == [] then first
    else Due(ops[..|ops| - 1], first, interval) + (if ops[|ops| - 1].Sweep? then interval else 0)
  }

  function Time(op: Op): int
    requires !op.Shutdown?
  {
    if op.Sweep? then op.now else op.head.now
  }

  function Clock(ops: seq<Op>, start: int): int
    requires Shutdown !in ops
  {
    if ops == [] then start else Time(ops[|ops| - 1])
  }

  /**
   The operations happen in order, the sweeps exactly when they are due: the first at `first`,
   every other one `interval` after the one before.
   */
  predicate OnSchedule(ops: seq<Op>, start: int, first: int, interval: int) {
    && Shutdown !in ops
    && (ops != [] ==>
      var before, last := ops[..|ops| - 1], ops[|ops| - 1];
      && OnSchedule(before, start, first, interval)
      && Clock(before, start) <= Time(last) <= Due(before, first, interval)
      && (last.Sweep? ==> Time(last) == Due(before, first, interval)))
  }

  /** No request comes with the baton, and it is not generated again. */
  predicate LeavesAlone(op: Op, b: Baton) {
    !op.Shutdown? && (op.Pipeline? || op.Cursor? ==> op.head.baton != Some(b) && op.head.generated != Some(b))
  }

  function From<S>(conn: nat -> Env<S>, ttl: int, s: Server<S>, ops: seq<Op>): Server<S> {
    if ops == [] then s
    else Apply(conn, ttl, From(conn, ttl, s, ops[..|ops| - 1]), ops[|ops| - 1]).0
  }

  ghost predicate AllNew<S>(conn: nat -> Env<S>, ttl: int, s: Server<S>, ops: seq<Op>) {
    ops != [] ==>
      && AllNew(conn, ttl, s, ops[..|ops| - 1])
      && NewBaton(From(conn, ttl, s, ops[..|ops| - 1]), ops[|ops| - 1])
  }

  /** A stored stream that a request is not about stays as it is; a sweep closes it exactly when it is idle. */
  lemma OthersLeaveItAlone<S>(conn: nat -> Env<S>, ttl: int, s: Server<S>, op: Op, b: Baton)
    requires Sound(s) && NewBaton(s, op) && b in s.entries && LeavesAlone(op, b)
    ensures var s' := Apply(conn, ttl, s, op).0;
      var e := s.entries[b];
      && e.stream < |s'.streams|
      && (b in s'.entries <==> !(op.Sweep? && e.lastSeen < op.now - ttl))
      && (b in s'.entries ==> s'.entries[b] == e && s'.streams[e.stream] == s.streams[e.stream])
      && (b !in s'.entries ==> s'.streams[e.stream].closed)
  {
    hide EnvOf, Pipelines.RunPipeline, Executor.RunCursor;
    var e := s.entries[b];
    if op.Sweep? {
      var batons := Expired(s, ttl, op.now);
      if b in batons {
        assert StoredUnder(s.entries, batons, e.stream);
      } else {
        assert !StoredUnder(s.entries, batons, e.stream);
      }
    } else {
      var r := Resolve(s, op.head);
      if r.Got? && OldBaton(op.head).Some? {
        assert r.stream == s.entries[OldBaton(op.head).value].stream != e.stream;
      }
    }
  }

  lemma ClosedForGood<S>(conn: nat -> Env<S>, ttl: int, s: Server<S>, op: Op, i: nat)
    requires i < |s.streams| && s.streams[i].closed
    ensures var s' := Apply(conn, ttl, s, op).0; i < |s'.streams| && s'.streams[i].closed
  {
    hide EnvOf, Pipelines.RunPipeline, Executor.RunCursor;
  }

  /** Still stored, open, and due to be swept in time; or closed by a sweep in time. */
  ghost predicate ClosedInTime<S>(s: Server<S>, b: Baton, e: BatonEntry, ttl: int, ops: seq<Op>, due: int, closedBy: nat) {
    && Sound(s)
    && e.stream < |s.streams|
    && (b in s.entries ==>
          s.entries[b] == e && !s.streams[e.stream].closed && due <= e.lastSeen + ttl + ttl / 2)
    && (b !in s.entries ==>
          && s.streams[e.stream].closed
          && closedBy < |ops| && ops[closedBy].Sweep?
          && e.lastSeen + ttl < ops[closedBy].now <= e.lastSeen + ttl + ttl / 2)
  }

  lemma {:induction false} ClockBeforeDue(ops: seq<Op>, start: int, first: int, interval: int)
    requires OnSchedule(ops, start, first, interval) && start <= first && interval >= 0
    ensures Clock(ops, start) <= Due(ops, first, interval)
  {
  }

  lemma ClosedInTimeStep<S>(conn: nat -> Env<S>, ttl: int, s: Server<S>, op: Op, b: Baton, e: BatonEntry,
                            ops: seq<Op>, due: int, closedBy: nat) returns (sweep: nat)
    requires ClosedInTime(s, b, e, ttl, ops, due, closedBy) && NewBaton(s, op) && LeavesAlone(op, b) && ttl >= 2
    requires op.Sweep? ==> op.now == due
    ensures var due' := due + (if op.Sweep? then ttl / 2 else 0);
      ClosedInTime(Apply(conn, ttl, s, op).0, b, e, ttl, ops + [op], due', sweep)
  {
    hide Apply, Sound;
    RequestsKeepSound(conn, ttl, s, op);
    if b in s.entries {
      OthersLeaveItAlone(conn, ttl, s, op, b);
      sweep := |ops|;
    } else {
      ClosedForGood(conn, ttl, s, op, e.stream);
      StoredOrGenerated(conn, ttl, s, op, b);
      sweep := closedBy;
    }
  }

  /**
   An abandoned stream, with a sweep every half of its time to live: as long as it is stored
   the clock is no later than its last use plus its time to live plus half of it, and when it
   is gone, it is closed and a sweep did it, strictly after the time to live had passed and no
   later than that.
   */
  lemma {:induction false} IdleStreamIsClosedInTime<S>(
    conn: nat -> Env<S>, ttl: int, s: Server<S>, b: Baton, first: int, ops: seq<Op>) returns (closedBy: nat)
    requires Sound(s) && b in s.entries && !s.streams[s.entries[b].stream].closed
    requires var u := s.entries[b].lastSeen; u <= first <= u + ttl / 2 && OnSchedule(ops, u, first, ttl / 2)
    requires ttl >= 2 && AllNew(conn, ttl, s, ops)
    requires forall k :: 0 <= k < |ops| ==> LeavesAlone(ops[k], b)
    ensures var s', e := From(conn, ttl, s, ops), s.entries[b];
      && ClosedInTime(s', b, e, ttl, ops, Due(ops, first, ttl / 2), closedBy)
      && (b in s'.entries ==> Clock(ops, e.lastSeen) <= e.lastSeen + ttl + ttl / 2)
    decreases |ops|
  {
    hide Apply, NewBaton;
    var e := s.entries[b];
    closedBy := 0;
    if ops != [] {
      var before, last := ops[..|ops| - 1], ops[|ops| - 1];
      assert before + [last] == ops;
      assert forall k :: 0 <= k < |before| ==> before[k] == ops[k];
      closedBy := IdleStreamIsClosedInTime(conn, ttl, s, b, first, before);
      var due := Due(before, first, ttl / 2);
      closedBy := ClosedInTimeStep(conn, ttl, From(conn, ttl, s, before), last, b, e, before, due, closedBy);
    }
    ClockBeforeDue(ops, e.lastSeen, first, ttl / 2);
  }
}
