/** What holds in every run of the retry protocol, whatever the interleaving of calls, answers, losses and swaps. */
module RetryTheorems {
  import opened NativeTypes
  import opened WsStreams
  import WsRuns
  import opened RetryClient
  import opened RetryProtocol
  import opened RetryInvariants
  import opened RetrySteps

  /** A connection whose read loop has ended is closed and has no waiters. */
  ghost predicate EndOk(k: Conn) {
    k.readEnded ==> k.core.closed && k.core.pending == map[]
  }

  ghost predicate ConnOk(generation: nat, k: Conn) {
    StreamsOk(generation, k.streams) && EndOk(k)
  }

  ghost predicate SystemOk(s: System) {
    forall c {:trigger ConnOk(s.generation, s.conns[c])} :: c in s.conns ==> ConnOk(s.generation, s.conns[c])
  }

  lemma NewConnOk()
    ensures Inv(NEW_CONN)
  {
  }

  lemma NextKeepsEnd(generation: nat, k: Conn, step: Step)
    requires EndOk(k)
    ensures EndOk(Next(generation, k, step))
  {
    hide Handle, WireId;
  }

  lemma StepsKeeps(generation: nat, k: Conn, step: Step)
    requires ConnOk(generation, k)
    ensures ConnOk(generation, Next(generation, k, step))
  {
    hide Next, EndOk, StreamsOk;
    NextKeepsEnd(generation, k, step);
    NextKeepsStreams(generation, k, step);
  }

  lemma EvolveKeeps(generation: nat, k: Conn)
    requires ConnOk(generation, k)
    ensures ConnOk(generation + 1, k.(streams := Supersede(k.streams, generation + 1)))
  {
    SupersedeKeepsStreams(generation, k.streams);
  }

  lemma ReactKeeps(s: System, e: Event)
    requires SystemOk(s)
    ensures SystemOk(React(s, e))
  {
    var s' := React(s, e);
    hide Next, Inv, ConnOk, Supersede;
    forall c | c in s'.conns ensures ConnOk(s'.generation, s'.conns[c]) {
      if c in s.conns {
        assert ConnOk(s.generation, s.conns[c]);
        match e {
          case Connects(_) =>
          case Steps(d, step) => if c == d { StepsKeeps(s.generation, s.conns[c], step); }
          case Evolves => EvolveKeeps(s.generation, s.conns[c]);
        }
      } else {
        NewConnIsOk(s'.generation);
      }
    }
  }

  lemma NewConnIsOk(generation: nat)
    ensures ConnOk(generation, NEW_CONN)
  {
    NewConnOk();
  }

  lemma {:induction false} AfterIsOk(events: seq<Event>)
    ensures SystemOk(After(events))
  {
    hide ConnOk, React;
    if events != [] {
      AfterIsOk(events[..|events| - 1]);
      ReactKeeps(After(events[..|events| - 1]), events[|events| - 1]);
    }
  }

  /** Whenever a call started on connection c in a run, its request id was not in use. */
  ghost predicate FreeIds(events: seq<Event>, c: nat) {
    events == [] ||
    var before, last := events[..|events| - 1], events[|events| - 1];
    var s := After(before);
    && FreeIds(before, c)
    && (last.Steps? && last.conn == c && c in s.conns ==> TakesFreeId(s.generation, s.conns[c], last.step))
  }

  /** A connection of a reachable state on which no request id was taken while it was in use. */
  ghost predicate Reached(events: seq<Event>, c: nat, k: Conn) {
    c in After(events).conns && After(events).conns[c] == k && FreeIds(events, c)
  }

  lemma {:induction false} InvAfter(events: seq<Event>, c: nat)
    requires FreeIds(events, c)
    ensures c in After(events).conns ==> Inv(After(events).conns[c])
  {
    hide Inv, TakesFreeId, Next;
    if events != [] {
      var before, last := events[..|events| - 1], events[|events| - 1];
      InvAfter(before, c);
      AfterIsOk(before);
      EventKeepsInv(After(before), last, c);
    }
  }

  lemma EventKeepsInv(s: System, e: Event, c: nat)
    requires SystemOk(s) && (c in s.conns ==> Inv(s.conns[c]))
    requires e.Steps? && e.conn == c && c in s.conns ==> TakesFreeId(s.generation, s.conns[c], e.step)
    ensures c in React(s, e).conns ==> Inv(React(s, e).conns[c])
  {
    NewConnOk();
    hide Inv, TakesFreeId, Next, StreamsOk, EndOk;
    if c in s.conns {
      var k := s.conns[c];
      assert ConnOk(s.generation, k);
      match e
      case Connects(_) =>
      case Steps(d, step) => if d == c { NextKeeps(s.generation, k, step); }
      case Evolves =>
        var k' := k.(streams := Supersede(k.streams, s.generation + 1));
        assert k.(core := k.core.(closed := k.core.closed), streams := k'.streams) == k';
        ClosingKeeps(k, k.core.closed, k'.streams);
    }
  }

  lemma ReachedIsOk(events: seq<Event>, c: nat, k: Conn)
    requires Reached(events, c, k)
    ensures Inv(k) && EndOk(k) && StreamsOk(After(events).generation, k.streams)
  {
    AfterIsOk(events);
    InvAfter(events, c);
    hide Inv, EndOk, StreamsOk, After, FreeIds;
    assert ConnOk(After(events).generation, k);
  }

  // ── Request ids ──

  lemma FewCallsMayBegin(k: Conn)
    requires Shape(k) && k.sent < TWO_TO_THE_32 - 1
    ensures MayBegin(k)
  {
    hide WireId;
    forall n: nat | Live(k, n) ensures WireId(n) != WireId(k.sent + 1) { WireIdsRepeat(n, k.sent + 1); }
  }

  /** The first 2^32 - 1 calls of a connection all take free ids. */
  lemma {:induction false} FewCallsTakeFreeIds(events: seq<Event>, c: nat)
    requires c in After(events).conns ==> After(events).conns[c].sent < TWO_TO_THE_32
    ensures FreeIds(events, c)
  {
    if events != [] {
      hide Next, Inv, Supersede;
      var before, last := events[..|events| - 1], events[|events| - 1];
      var s := After(before);
      if c in s.conns {
        if last.Steps? && last.conn == c { NextCountsUp(s.generation, s.conns[c], last.step); }
      }
      FewCallsTakeFreeIds(before, c);
      if c in s.conns && last.Steps? && last.conn == c && Next(s.generation, s.conns[c], last.step).sent > s.conns[c].sent {
        InvAfter(before, c);
        InvHasShape(s.conns[c]);
        FewCallsMayBegin(s.conns[c]);
      }
    }
  }

  lemma InvHasShape(k: Conn)
    requires Inv(k)
    ensures Shape(k)
  {
  }

  const A_CALL := Steps(0, UserCalls(OnStream(0)))

  /** One connection, and n calls on it that nobody writes yet. */
  function CallsOnly(n: nat): seq<Event> {
    if n == 0 then [Connects(0)] else CallsOnly(n - 1) + [A_CALL]
  }

  /** What a connection looks like after n calls: call 1 has its waiter until its id comes round. */
  ghost predicate OnlyCalled(k: Conn, n: nat) {
    && !k.core.closed && k.sent == n && k.core.seqNo == WireId(n) && k.retries == map[]
    && k.core.chans.Keys == k.calls.Keys && (forall i :: i in k.calls ==> i <= n)
    && (forall id :: id in k.core.pending ==> k.core.pending[id].chan <= n && id == WireId(k.core.pending[id].chan))
    && (n >= 1 ==> 1 in k.calls && k.calls[1].stage.Registered? && Sent(k.core, 1) == [])
    && (1 <= n <= TWO_TO_THE_32 ==> WireId(1) in k.core.pending && k.core.pending[WireId(1)].chan == 1)
    && (n == TWO_TO_THE_32 + 1 ==> WireId(1) in k.core.pending && k.core.pending[WireId(1)].chan == n)
  }

  lemma OneMoreCall(k: Conn, n: nat)
    requires OnlyCalled(k, n)
    ensures OnlyCalled(Begin(k, k.sent + 1, 0, OnStream(0), User), n + 1)
  {
    WireIdSteps(n);
    WireIdsRepeat(1, n + 1);
    hide WireId;
  }

  lemma {:induction false} AfterCallsOnly(n: nat)
    ensures var s := After(CallsOnly(n)); 0 in s.conns && OnlyCalled(s.conns[0], n)
  {
    hide OnlyCalled, Begin, After, React;
    if n == 0 {
      AfterConnect();
      NoCallYet();
    } else {
      AfterCallsOnly(n - 1);
      AfterSnoc(CallsOnly(n - 1), A_CALL);
      CallHappens(After(CallsOnly(n - 1)));
      OneMoreCall(After(CallsOnly(n - 1)).conns[0], n - 1);
    }
  }

  lemma NoCallYet()
    ensures OnlyCalled(NEW_CONN, 0)
  {
  }

  lemma AfterConnect()
    ensures var s := After([Connects(0)]); 0 in s.conns && s.conns[0] == NEW_CONN
  {
    assert [Connects(0)][..0] == [];
    assert After([]) == START;
  }

  lemma AfterSnoc(events: seq<Event>, e: Event)
    ensures After(events + [e]) == React(After(events), e)
  {
    hide React;
    assert (events + [e])[..|events|] == events;
  }

  lemma CallHappens(s: System)
    requires 0 in s.conns
    ensures var s' := React(s, A_CALL);
      0 in s'.conns && s'.conns[0] == Begin(s.conns[0], s.conns[0].sent + 1, 0, OnStream(0), User)
  {
    hide Begin;
  }

  /**
   The ids do come round: the call after the first 2^32 takes the id of call 1 while call 1
   still waits, and from then on nobody will ever answer call 1.
   */
  lemma IdsComeRound()
    ensures var s, s' := After(CallsOnly(TWO_TO_THE_32)), After(CallsOnly(TWO_TO_THE_32 + 1));
      && 0 in s.conns && 0 in s'.conns
      && !MayBegin(s.conns[0]) && Awaited(s.conns[0].core, 1)
      && var k := s'.conns[0];
         1 in k.calls && k.calls[1].stage.Registered? && Sent(k.core, 1) == [] && !Awaited(k.core, 1) && 1 !in k.retries
  {
    var n := TWO_TO_THE_32;
    AfterCallsOnly(n);
    AfterCallsOnly(n + 1);
    WireIdsRepeat(1, n + 1);
    hide CallsOnly, After, WireId;
    assert Live(After(CallsOnly(n)).conns[0], 1);
  }

  // ── At most once ──

  lemma CallsThatRanAreLast(k: Conn, i: nat, n: nat)
    requires ChainOk(k) && LogOk(k) && i < |k.log|
    requires n in k.calls && k.calls[n].root == k.log[i].root && n != k.log[i].call
    ensures n < k.log[i].call && n in k.retries && WasResent(k.retries[n])
  {
  }

  /**
   Across all its retries, no request of the application runs twice, however often
   the database is swapped; and whatever runs, runs on a stream of the generation
   that is current at that moment.
   */
  lemma AtMostOnce(events: seq<Event>, c: nat, k: Conn)
    requires Reached(events, c, k)
    ensures forall i, j :: 0 <= i < j < |k.log| ==> k.log[i].root != k.log[j].root
    ensures forall i :: 0 <= i < |k.log| ==> k.log[i].streamGeneration == k.log[i].generation
  {
    ReachedIsOk(events, c, k);
    hide Reached, Shape, Ancestry, PendingOk, ChannelsOk, NetworkOk, RecoveryOk, AnswersOk, EndOk, StreamsOk;
    forall i, j | 0 <= i < j < |k.log| ensures k.log[i].root != k.log[j].root {
      if k.log[i].root == k.log[j].root {
        CallsThatRanAreLast(k, i, k.log[j].call);
        assert false;
      }
    }
  }

  lemma AbandonedDidNotRun(k: Conn, root: nat)
    requires ChainOk(k) && LogOk(k) && Abandoned(k, root)
    ensures !RanFor(k, root)
  {
    var d :| d in k.calls && k.calls[d].root == root && d in k.retries && GaveUp(k.retries[d]);
    forall i | 0 <= i < |k.log| ensures k.log[i].root != root {
      if k.log[i].root == root {
        CallsThatRanAreLast(k, i, d);
        assert false;
      }
    }
  }

  /** A request of which some call was given up after its retries was never executed, by any of its calls. */
  lemma AbandonedNeverRan(events: seq<Event>, c: nat, k: Conn, root: nat)
    requires Reached(events, c, k) && Abandoned(k, root)
    ensures !RanFor(k, root)
  {
    ReachedIsOk(events, c, k);
    hide Reached, Shape, Ancestry, PendingOk, ChannelsOk, NetworkOk, RecoveryOk, AnswersOk, IdsApart, EndOk, StreamsOk;
    AbandonedDidNotRun(k, root);
  }

  /** What a stream request reports is true: success of something that ran, "superseded" of something that never did. */
  lemma AnswersAreTrue(events: seq<Event>, c: nat, k: Conn, n: nat)
    requires Reached(events, c, k) && n in k.calls && k.calls[n].origin.User? && k.calls[n].request.OnStream?
    requires k.calls[n].stage.Returned?
    ensures k.calls[n].stage.result.Data? ==> RanFor(k, n)
    ensures k.calls[n].stage.result == Failed(SupersededStream) ==> !RanFor(k, n)
  {
    ReachedIsOk(events, c, k);
    hide Reached, Shape, PendingOk, ChannelsOk, NetworkOk, RecoveryOk, EndOk, StreamsOk;
    assert OriginOk(k, n);
    assert CallAnswerOk(k, n);
    if k.calls[n].stage.result == Failed(SupersededStream) {
      AbandonedDidNotRun(k, n);
    }
  }

  // ── Bounded retries ──

  /** Things of different ranks below a bound are no more than the bound. */
  lemma {:induction false} DistinctRanksBounded(things: set<nat>, rank: map<nat, nat>, below: nat)
    requires things <= rank.Keys && forall n :: n in things ==> rank[n] < below
    requires forall n, n' :: n in things && n' in things && n < n' ==> rank[n] != rank[n']
    ensures |things| <= below
  {
    if below == 0 {
      assert things == {};
    } else if n :| n in things && rank[n] == below - 1 {
      DistinctRanksBounded(things - {n}, rank, below - 1);
    } else {
      DistinctRanksBounded(things, rank, below - 1);
    }
  }

  /** Every call made for `root`: the application's own and its retries. */
  function CallsFor(k: Conn, root: nat): set<nat> {
    set n | n in k.calls && k.calls[n].root == root
  }

  lemma CallsForBounded(k: Conn, root: nat)
    requires Ancestry(k) && ChainOk(k)
    ensures |CallsFor(k, root)| <= 1 + MAX_STREAM_RETRIES
  {
    var rank: map<nat, nat> := map n | n in k.calls :: k.calls[n].retries;
    forall n | n in k.calls ensures k.calls[n].retries <= MAX_STREAM_RETRIES { assert OriginOk(k, n); }
    hide Ancestry;
    DistinctRanksBounded(CallsFor(k, root), rank, 1 + MAX_STREAM_RETRIES);
  }

  /** A request is sent at most once more than the number of retries allowed. */
  lemma BoundedAttempts(events: seq<Event>, c: nat, k: Conn, root: nat)
    requires Reached(events, c, k)
    ensures |CallsFor(k, root)| <= 1 + MAX_STREAM_RETRIES
  {
    ReachedIsOk(events, c, k);
    hide Reached, Shape, Ancestry, PendingOk, ChannelsOk, NetworkOk, ChainOk, RecoveryOk, AnswersOk, LogOk, CallsFor;
    CallsForBounded(k, root);
  }

  // ── Channels ──

  /**
   No reply channel ever holds more than one value, and whoever is about to send on
   one finds it empty: the read loop and its drain because `WaitersFresh` holds, a
   retry goroutine because nobody else answers for its call.
   */
  lemma SendsNeverBlock(events: seq<Event>, c: nat, k: Conn)
    requires Reached(events, c, k)
    ensures forall n :: n in k.calls ==> |Sent(k.core, n)| <= 1
    ensures WaitersFresh(k.core)
    ensures forall n :: n in k.retries && !k.retries[n].Answered? ==> Sent(k.core, n) == []
  {
    ReachedIsOk(events, c, k);
    hide Reached, ChainOk, NetworkOk, RecoveryOk, EndOk, StreamsOk, AnswersOk, LogOk, Ancestry;
    forall n | n in k.calls
      ensures |Sent(k.core, n)| <= 1 && (n in k.retries && !k.retries[n].Answered? ==> Sent(k.core, n) == [])
    {
      assert ChannelOk(k, n);
    }
  }

  ghost predicate Ended(k: Conn) {
    k.readEnded && k.core.closed && k.core.pending == map[]
  }

  lemma EndStays(generation: nat, k: Conn, step: Step)
    requires Ended(k)
    ensures Ended(Next(generation, k, step))
  {
    NextKeepsEnd(generation, k, step);
    hide Handle, WireId, Register, Dispatch, Forget, Drain, Send, Sent;
  }

  lemma EndStaysOnEvent(s: System, e: Event, c: nat)
    requires c in s.conns && Ended(s.conns[c])
    ensures c in React(s, e).conns && Ended(React(s, e).conns[c])
  {
    if e.Steps? && e.conn == c { EndStays(s.generation, s.conns[c], e.step); }
    hide Next;
  }

  /** Once the read loop of a connection has ended, nobody is ever left waiting in `pending` again. */
  lemma {:induction false} NoWaiterAfterTheEnd(events: seq<Event>, more: seq<Event>, c: nat)
    requires c in After(events).conns && After(events).conns[c].readEnded
    ensures c in After(events + more).conns && Ended(After(events + more).conns[c])
  {
    hide React, ConnOk, Ended;
    if more == [] {
      assert events + more == events;
      EndedIsEnded(events, c);
    } else {
      var init := more[..|more| - 1];
      NoWaiterAfterTheEnd(events, init, c);
      assert (events + more)[..|events + more| - 1] == events + init;
      EndStaysOnEvent(After(events + init), more[|more| - 1], c);
    }
  }

  lemma EndedIsEnded(events: seq<Event>, c: nat)
    requires c in After(events).conns && After(events).conns[c].readEnded
    ensures Ended(After(events).conns[c])
  {
    AfterIsOk(events);
    hide After, Inv, StreamsOk;
    assert ConnOk(After(events).generation, After(events).conns[c]);
  }

  // ── Closing ──

  /** Everything started since the first `since` calls was refused on the spot. */
  ghost predicate RefusedSince(k: Conn, since: nat) {
    && k.core.closed && k.sent >= since
    && (forall n :: n in k.calls && n > since ==> k.calls[n].stage == Returned(Failed(ConnectionClosed)))
    && (forall m :: m in k.requests ==> m.call <= since)
  }

  lemma RefusalStays(generation: nat, k: Conn, step: Step, since: nat)
    requires RefusedSince(k, since)
    ensures RefusedSince(Next(generation, k, step), since)
  {
    hide RefusedSince, Advances, Begin, Delivers, Serves, Writes, GivesUp, SetStage, Drain, Sent, Cancellable;
    var k' := Next(generation, k, step);
    match step {
      case UserCalls(request) => BeginIsRefused(k, k.sent + 1, 0, request, User, since);
      case Advance(n) => if n in k.retries && n in k.calls { AdvanceIsRefused(k, n, since); }
      case Deliver(m) => DeliveryKeepsRefusal(k, m, since);
      case Serve(m, env) => if m in k.requests && m.call in k.calls { ServingKeepsRefusal(generation, k, m, env, since); }
      case Write(n) => if k' != k { WriteKeepsRefusal(k, n, since); }
      case WriteFails(n, leaked) =>
        if k' != k {
          if leaked { WriteKeepsRefusal(k, n, since); }
          GivingUpKeepsRefusal(if leaked then Writes(k, n) else k, n, SendFailed, since);
        }
      case Receive(n) => if k' != k { ReturningKeepsRefusal(k, n, Sent(k.core, n)[0], since); }
      case Cancel(n) => if k' != k { GivingUpKeepsRefusal(k, n, Cancelled, since); }
      case ReadEnds => if k' != k { DrainKeepsRefusal(k, since); }
      case LoseRequest(m) => FewerKeepRefusal(k, k', since);
      case LoseResponse(m) => FewerKeepRefusal(k, k', since);
      case SessionEnds => FewerKeepRefusal(k, k', since);
      case CloseConn => FewerKeepRefusal(k, k', since);
    }
  }

  lemma WriteKeepsRefusal(k: Conn, n: nat, since: nat)
    requires RefusedSince(k, since) && n in k.calls && k.calls[n].stage.Registered?
    ensures var k' := Writes(k, n); n in k'.calls && RefusedSince(k', since) && k'.calls[n].stage.Waiting?
  {
    CallerKeepsRefusal(k, Writes(k, n), n, since);
  }

  lemma GivingUpKeepsRefusal(k: Conn, n: nat, reason: Reason, since: nat)
    requires RefusedSince(k, since) && n in k.calls && !k.calls[n].stage.Returned?
    ensures RefusedSince(GivesUp(k, n, reason), since)
  {
    CallerKeepsRefusal(k, GivesUp(k, n, reason), n, since);
  }

  lemma ReturningKeepsRefusal(k: Conn, n: nat, result: Result, since: nat)
    requires RefusedSince(k, since) && n in k.calls && !k.calls[n].stage.Returned?
    ensures RefusedSince(SetStage(k, n, Returned(result)), since)
  {
    CallerKeepsRefusal(k, SetStage(k, n, Returned(result)), n, since);
  }

  lemma DrainKeepsRefusal(k: Conn, since: nat)
    requires RefusedSince(k, since)
    ensures RefusedSince(k.(readEnded := true, core := Drain(k.core)), since)
  {
  }

  /** A caller acts: only for a call that was not refused. */
  lemma CallerKeepsRefusal(k: Conn, k': Conn, n: nat, since: nat)
    requires RefusedSince(k, since) && n in k.calls && !k.calls[n].stage.Returned?
    requires k'.core.closed && k'.sent == k.sent && n in k'.calls && k'.calls == k.calls[n := k'.calls[n]]
    requires k'.requests <= k.requests + multiset{RequestMsg(WireId(n), k.calls[n].request, n)}
    ensures RefusedSince(k', since)
  {
    hide WireId;
    assert forall m :: m in k'.requests ==> m in k.requests || m.call == n;
  }

  lemma FewerKeepRefusal(k: Conn, k': Conn, since: nat)
    requires RefusedSince(k, since) && (k.core.closed ==> k'.core.closed)
    requires k'.sent == k.sent && k'.calls == k.calls && k'.requests <= k.requests
    ensures RefusedSince(k', since)
  {
    assert forall m :: m in k'.requests ==> m in k.requests;
  }

  lemma ServingKeepsRefusal(generation: nat, k: Conn, m: RequestMsg, env: Env, since: nat)
    requires RefusedSince(k, since) && m in k.requests && m.call in k.calls
    ensures RefusedSince(Serves(generation, k, m, env), since)
  {
    hide Handle;
    FewerKeepRefusal(k, Serves(generation, k, m, env), since);
  }

  lemma DeliveryPeers(k: Conn, m: ResponseMsg)
    ensures Peers(k, Delivers(k, m))
  {
    hide Dispatch;
    match m.response {
      case Success(id) => DispatchLeavesItOpen(k.core, m.id, Data(id));
      case Failure => DispatchLeavesItOpen(k.core, m.id, Failed(Rejected));
      case SupersededFailure =>
    }
  }

  lemma DispatchLeavesItOpen(c: Core, id: int32, result: Result)
    ensures Dispatch(c, id, result).closed == c.closed
  {
    hide Sent;
  }

  lemma DeliveryKeepsRefusal(k: Conn, m: ResponseMsg, since: nat)
    requires RefusedSince(k, since)
    ensures RefusedSince(Delivers(k, m), since)
  {
    hide RefusedSince;
    DeliveryPeers(k, m);
    PeersAreRefused(k, Delivers(k, m), since);
  }

  lemma BeginIsRefused(k: Conn, root: nat, retries: nat, request: Request, origin: Origin, since: nat)
    requires RefusedSince(k, since)
    ensures RefusedSince(Begin(k, root, retries, request, origin), since)
  {
    hide WireId;
  }

  lemma AdvanceIsRefused(k: Conn, n: nat, since: nat)
    requires RefusedSince(k, since) && n in k.retries && n in k.calls
    ensures RefusedSince(Advances(k, n), since)
  {
    hide RefusedSince, Begin, WireId, Sent, Send;
    var k', call, id := Advances(k, n), k.calls[n], k.core.streamId;
    match k.retries[n] {
      case Leading =>
        BeginIsRefused(k, k.sent + 1, 0, CloseStream(id), CloseFor(n), since);
        PeersAreRefused(Begin(k, k.sent + 1, 0, CloseStream(id), CloseFor(n)), k', since);
      case Closing(c) =>
        BeginIsRefused(k, k.sent + 1, 0, OpenStreamAssigned, OpenFor(n), since);
        if k' != k { PeersAreRefused(Begin(k, k.sent + 1, 0, OpenStreamAssigned, OpenFor(n)), k', since); }
      case Ready =>
        var again := Begin(k, call.root, call.retries + 1, OnNewStream(call.request, id), RetryOf(n));
        BeginIsRefused(k, call.root, call.retries + 1, OnNewStream(call.request, id), RetryOf(n), since);
        PeersAreRefused(again, k', since);
      case _ =>
        AdvanceWithoutCall(k, n);
        PeersAreRefused(k, k', since);
    }
  }

  ghost predicate Peers(k: Conn, k': Conn) {
    k'.core.closed == k.core.closed && k'.sent == k.sent && k'.calls == k.calls && k'.requests == k.requests
  }

  lemma SetRetryPeers(k: Conn, core: Core, n: nat, r: Retry)
    requires core.closed == k.core.closed
    ensures Peers(k, SetRetry(k.(core := core), n, r))
  {
  }

  lemma AdvanceWithoutCall(k: Conn, n: nat)
    requires n in k.retries && n in k.calls
    requires !k.retries[n].Leading? && !k.retries[n].Closing? && !k.retries[n].Ready?
    ensures Peers(k, Advances(k, n))
  {
    AdvanceShape(k, n);
    hide Advances, SetRetry;
    var k' := Advances(k, n);
    if k' != k { SetRetryPeers(k, k'.core, n, k'.retries[n]); }
  }

  lemma AdvanceShape(k: Conn, n: nat)
    requires n in k.retries && n in k.calls
    requires !k.retries[n].Leading? && !k.retries[n].Closing? && !k.retries[n].Ready?
    ensures var k' := Advances(k, n);
      || k' == k
      || (n in k'.retries && k'.core.closed == k.core.closed && k' == SetRetry(k.(core := k'.core), n, k'.retries[n]))
  {
    hide Begin, OnNewStream, Sent;
    match k.retries[n] {
      case Resent(c) =>
      case GivingUp(_) =>
      case Opening(_) =>
      case Started =>
      case Following(_) =>
      case Answered(_) =>
    }
  }

  /** Two states that differ in nothing a refusal depends on. */
  lemma PeersAreRefused(k: Conn, k': Conn, since: nat)
    requires RefusedSince(k, since) && Peers(k, k')
    ensures RefusedSince(k', since)
  {
  }

  /**
   Once a connection is closed, by the application or by the end of its read loop, no request
   gets out on it any more: every call started later is refused on the spot, the `close_stream`
   that `Close` itself goes on to send among them.
   */
  lemma {:induction false} NothingIsSentAfterClose(events: seq<Event>, more: seq<Event>, c: nat, k: Conn)
    requires Reached(events, c, k) && k.core.closed
    ensures c in After(events + more).conns && RefusedSince(After(events + more).conns[c], k.sent)
    decreases more
  {
    if more == [] {
      assert events + more == events;
      ReachedIsOk(events, c, k);
      assert forall m :: m in k.requests ==> RequestOk(k, m);
    } else {
      var init, last := more[..|more| - 1], more[|more| - 1];
      NothingIsSentAfterClose(events, init, c, k);
      assert events + more == events + init + [last];
      hide RefusedSince, Next, Supersede, After, Reached;
      AfterSnoc(events + init, last);
      EventKeepsRefusal(After(events + init), last, c, k.sent);
    }
  }

  lemma EventKeepsRefusal(s: System, e: Event, c: nat, since: nat)
    requires c in s.conns && RefusedSince(s.conns[c], since)
    ensures c in React(s, e).conns && RefusedSince(React(s, e).conns[c], since)
  {
    if e.Steps? && e.conn == c { RefusalStays(s.generation, s.conns[c], e.step, since); }
    hide Next;
  }

  /** `Close` and the `close_stream` it tries: nothing is registered, nothing is in flight, and the caller has its error. */
  lemma CloseStreamIsRefused(k: Conn)
    requires !k.core.closed
    ensures var closing := Next(0, k, CloseConn);
      var asked := Next(0, closing, UserCalls(CloseStream(closing.core.streamId)));
      && asked.calls[asked.sent].stage == Returned(Failed(ConnectionClosed))
      && asked.requests == k.requests && asked.core.pending == k.core.pending
  {
  }

  // ── What single steps mean ──

  /** The call has returned this, and nobody waits under its id any more. */
  predicate ReturnedAs(k: Conn, n: nat, result: Result) {
    n in k.calls && k.calls[n].stage == Returned(result) && WireId(n) !in k.core.pending
  }

  /**
   What a caller does: he writes his own request under his own id and waits; or his write fails,
   and then he is told so, though the request may have got out all the same; or he takes what is
   in his channel; or his context ends, unless he is a retry, which has none.
   */
  lemma CallersDo(generation: nat, k: Conn, n: nat)
    requires Shape(k) && n in k.calls
    ensures k.calls[n].stage.Registered? ==>
      var message := RequestMsg(WireId(n), k.calls[n].request, n);
      var written, kept, leaked :=
        Next(generation, k, Write(n)), Next(generation, k, WriteFails(n, false)), Next(generation, k, WriteFails(n, true));
      && written.requests == k.requests + multiset{message} && written.calls[n].stage == Waiting && written.core == k.core
      && kept.requests == k.requests && ReturnedAs(kept, n, Failed(SendFailed))
      && leaked.requests == k.requests + multiset{message} && ReturnedAs(leaked, n, Failed(SendFailed))
    ensures k.calls[n].stage.Waiting? && Sent(k.core, n) != [] ==>
      Next(generation, k, Receive(n)).calls[n].stage == Returned(Sent(k.core, n)[0])
    ensures k.calls[n].stage.Waiting? ==>
      if k.calls[n].origin.RetryOf? then Next(generation, k, Cancel(n)) == k
      else ReturnedAs(Next(generation, k, Cancel(n)), n, Failed(Cancelled))
  {
    hide WireId, Sent;
  }

  /**
   What the read loop does with an answer: data and refusals go to the waiter of the id as they
   are, a superseded answer gives the waiter to a goroutine, and with no waiter it is dropped.
   */
  lemma DeliveryTells(k: Conn, m: ResponseMsg)
    requires WaitersFresh(k.core)
    ensures var k' := Delivers(k, m);
      if m.id !in k.core.pending then k' == k.(responses := k.responses - multiset{m})
      else
        var n := k.core.pending[m.id].chan;
        && m.id !in k'.core.pending && k'.responses == k.responses - multiset{m}
        && (m.response.Success? ==> Sent(k'.core, n) == [Data(m.response.streamId)] && k'.retries == k.retries)
        && (m.response.Failure? ==> Sent(k'.core, n) == [Failed(Rejected)] && k'.retries == k.retries)
        && (m.response.SupersededFailure? ==> Sent(k'.core, n) == [] && k'.retries == k.retries[n := Started])
  {
    if m.id in k.core.pending {
      var n := k.core.pending[m.id].chan;
      if m.response.Success? { DispatchTellsItsWaiter(k.core, m.id, Data(m.response.streamId), n); }
      if m.response.Failure? { DispatchTellsItsWaiter(k.core, m.id, Failed(Rejected), n); }
      hide Dispatch, WaitersFresh;
      assert Sent(Forget(k.core, m.id), n) == Sent(k.core, n);
    }
  }

  /** A lost message is one message less, and nobody is told. */
  lemma LossIsSilent(generation: nat, k: Conn, q: RequestMsg, r: ResponseMsg)
    ensures var k' := Next(generation, k, LoseRequest(q));
      k' == k.(requests := k'.requests) && k'.requests == k.requests - multiset{q}
    ensures var k' := Next(generation, k, LoseResponse(r));
      k' == k.(responses := k'.responses) && k'.responses == k.responses - multiset{r}
  {
  }

  /**
   To the server a connection is a session: its streams change by the requests that are served,
   by the swaps and by the end of the session, each as for any session, and by nothing else.
   */
  lemma StreamsAreASession(generation: nat, k: Conn, step: Step)
    ensures var session, streams := WsRuns.Moment(generation, k.streams), Next(generation, k, step).streams;
      if step.Serve? && step.asked in k.requests && step.asked.call in k.calls
      then streams == WsRuns.Step(session, WsRuns.Asks(step.asked.request, step.env)).streams
      else if step.SessionEnds? then streams == WsRuns.Step(session, WsRuns.Drops).streams
      else streams == k.streams
  {
    if step.Serve? {
      hide Handle;
    } else if !step.SessionEnds? {
      OthersLeaveStreams(generation, k, step);
      hide Next;
    }
  }

  lemma OthersLeaveStreams(generation: nat, k: Conn, step: Step)
    requires !step.Serve? && !step.SessionEnds?
    ensures Next(generation, k, step).streams == k.streams
  {
    if step.Write? || step.WriteFails? || step.Receive? || step.Cancel? {
      hide Next, Writes, GivesUp, SetStage, Sent;
      CallerStepIs(generation, k, step);
      CallerLeavesStreams(k, step.call);
    } else if step.UserCalls? || step.Deliver? || step.Advance? || step.ReadEnds? {
      hide Next, Begin, Delivers, Advances, Drain;
      ClientStepIs(generation, k, step);
      match step {
        case UserCalls(request) => CallLeavesStreams(k, k.sent + 1, 0, request, User);
        case Deliver(m) => DeliveryLeavesStreams(k, m);
        case Advance(n) => if n in k.retries && n in k.calls { AdvanceLeavesStreams(k, n); }
        case ReadEnds =>
      }
    }
  }

  lemma CallLeavesStreams(k: Conn, root: nat, retries: nat, request: Request, origin: Origin)
    ensures Begin(k, root, retries, request, origin).streams == k.streams
  {
    hide Register;
  }

  lemma CallerLeavesStreams(k: Conn, n: nat)
    ensures n in k.calls ==> forall stage :: SetStage(k, n, stage).streams == k.streams
    ensures n in k.calls ==> Writes(k, n).streams == k.streams
    ensures n in k.calls ==> forall reason :: GivesUp(k, n, reason).streams == k.streams
    ensures n in k.calls ==> GivesUp(Writes(k, n), n, SendFailed).streams == k.streams
  {
    hide Forget, WireId;
  }

  lemma DeliveryLeavesStreams(k: Conn, m: ResponseMsg)
    ensures Delivers(k, m).streams == k.streams
  {
    hide Dispatch, Forget;
  }

  lemma AdvanceLeavesStreams(k: Conn, n: nat)
    requires n in k.retries && n in k.calls
    ensures Advances(k, n).streams == k.streams
  {
    hide WireId, Register, Send, Sent;
  }

  /** A swap is one for every session. */
  lemma SwapsReachEverySession(s: System, c: nat)
    requires c in s.conns
    ensures var s' := React(s, Evolves);
      && c in s'.conns
      && WsRuns.Moment(s'.generation, s'.conns[c].streams) ==
           WsRuns.Step(WsRuns.Moment(s.generation, s.conns[c].streams), WsRuns.Swaps)
  {
    hide Supersede;
  }

  // ── Recovery ──

  /** One goroutine at most leads a recovery, and those who wait for it are waited for by nobody. */
  lemma SingleFlightRecovery(events: seq<Event>, c: nat, k: Conn)
    requires Reached(events, c, k)
    ensures forall n, n' :: n in k.retries && n' in k.retries && Leads(k.retries[n]) && Leads(k.retries[n']) ==> n == n'
    ensures forall n :: n in k.retries && k.retries[n].Following? ==>
              k.retries[n].leader in k.retries && !k.retries[k.retries[n].leader].Following?
  {
    ReachedIsOk(events, c, k);
    hide Reached, Shape, Ancestry, PendingOk, ChannelsOk, NetworkOk, ChainOk, AnswersOk, LogOk, EndOk, StreamsOk;
    forall n | n in k.retries
      ensures n in k.calls && RetryOk(k, n)
    {
      RetryOkAt(k, n);
    }
  }

  /** The requests of a recovery are never answered as superseded, so a recovery never waits for a retry. */
  lemma RecoveryIsNeverSuperseded(events: seq<Event>, c: nat, k: Conn, n: nat)
    requires Reached(events, c, k) && n in k.calls && (k.calls[n].origin.CloseFor? || k.calls[n].origin.OpenFor?)
    ensures n !in k.retries && k.calls[n].root == n
    ensures forall r :: r in k.responses && r.call == n ==> !r.response.SupersededFailure?
  {
    ReachedIsOk(events, c, k);
    hide Reached, Shape, PendingOk, ChannelsOk, ChainOk, AnswersOk, LogOk, EndOk, StreamsOk;
    assert OriginOk(k, n);
    if n in k.retries { RetryOkAt(k, n); }
  }

  // ── The server's streams ──

  /** No event takes the superseded mark off a stream: the stream stays superseded until it is gone. */
  lemma SupersededForGood(s: System, e: Event, c: nat, id: int32)
    requires c in s.conns && id in s.conns[c].streams && s.conns[c].streams[id].superseded
    ensures c in React(s, e).conns
    ensures id in React(s, e).conns[c].streams ==> React(s, e).conns[c].streams[id].superseded
  {
    var k := s.conns[c];
    if e.Steps? && e.conn == c && e.step.Serve? && e.step.asked in k.requests && e.step.asked.call in k.calls {
      HandleNeverUnmarks(s.generation, k.streams, e.step.asked.request, e.step.env, id);
    }
    hide Handle, WireId, Register, Dispatch, Forget, Drain, Send, Sent;
  }

  /** In every reachable state a registered stream is superseded exactly when its generation is over. */
  lemma SupersededExactlyWhenOld(events: seq<Event>, c: nat, id: int32)
    requires c in After(events).conns && id in After(events).conns[c].streams
    ensures var s := After(events);
            && s.conns[c].streams[id].generation <= s.generation
            && (s.conns[c].streams[id].superseded <==> s.conns[c].streams[id].generation < s.generation)
  {
    AfterIsOk(events);
    hide After, Inv;
    assert ConnOk(After(events).generation, After(events).conns[c]);
  }
}
