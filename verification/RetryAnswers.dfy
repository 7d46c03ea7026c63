/**
 What a retry tells the caller it works for, and what a recovery does on the way: it closes the
 superseded stream before it opens another, its failure is told as such, and otherwise the
 caller hears exactly what its next attempt heard.
 */
module RetryAnswers {
  import opened NativeTypes
  import opened WsStreams
  import opened RetryClient
  import opened RetryProtocol
  import opened RetryInvariants
  import opened RetrySteps
  import opened RetryTheorems

  /** Call d asks the server to open the stream of the recovery that the goroutine of n leads. */
  predicate OpensFor(k: Conn, n: nat, d: nat) {
    d in k.calls && k.calls[d].origin == OpenFor(n)
  }

  predicate BelongsTo(k: Conn, n: nat, d: nat) {
    d in k.calls && (k.calls[d].origin == OpenFor(n) || k.calls[d].origin == CloseFor(n))
  }

  /** The recovery that the goroutine of n led got no new stream. */
  ghost predicate FailedRecovery(k: Conn, n: nat) {
    exists d: nat :: OpensFor(k, n, d) && k.calls[d].stage.Returned? && k.calls[d].stage.result.Failed?
  }

  /** The server was asked to close the stream that was superseded, and the request has returned. */
  ghost predicate OldStreamClosed(k: Conn, n: nat) {
    exists d: nat :: d in k.calls && k.calls[d].origin == CloseFor(n) && k.calls[d].stage.Returned?
                     && k.calls[d].request == CloseStream(k.core.streamId)
  }

  /** The next attempt of call n returned this. */
  ghost predicate NextHeard(k: Conn, n: nat, result: Result) {
    exists d: nat :: d in k.calls && k.calls[d].origin == RetryOf(n) && k.calls[d].stage == Returned(result)
  }

  /** Every stream that was asked for in the recovery was opened. */
  ghost predicate Recovered(k: Conn, n: nat) {
    forall d: nat {:trigger OpensFor(k, n, d)} ::
      OpensFor(k, n, d) ==> k.calls[d].stage.Returned? && k.calls[d].stage.result.Data?
  }

  ghost predicate NoneBelongs(k: Conn, n: nat) {
    forall d: nat {:trigger BelongsTo(k, n, d)} :: !BelongsTo(k, n, d)
  }

  ghost predicate GaveUpFor(k: Conn, n: nat, reason: Reason)
    requires n in k.calls
  {
    || (reason == SupersededStream && k.calls[n].retries >= MAX_STREAM_RETRIES)
    || (reason == RecoveryFailed && FailedRecovery(k, n))
  }

  ghost predicate PassedAt(k: Conn, n: nat)
    requires n in k.retries && n in k.calls
  {
    match k.retries[n]
    case Started => NoneBelongs(k, n)
    case Following(_) => NoneBelongs(k, n)
    case Leading => NoneBelongs(k, n)
    case Closing(c) =>
      && (forall d: nat :: !OpensFor(k, n, d))
      && (c in k.calls ==> k.calls[c].request == CloseStream(k.core.streamId))
    case Opening(c) =>
      && (forall d: nat :: OpensFor(k, n, d) ==> d == c)
      && (c in k.calls ==> k.calls[c].request == OpenStreamAssigned)
      && OldStreamClosed(k, n)
    case Ready => Recovered(k, n)
    case Resent(_) => Recovered(k, n)
    case GivingUp(reason) => GaveUpFor(k, n, reason)
    case Answered(true) => Recovered(k, n) && |Sent(k.core, n)| == 1 && NextHeard(k, n, Sent(k.core, n)[0])
    case Answered(false) =>
      exists reason :: GaveUpFor(k, n, reason) && Sent(k.core, n) == [Failed(reason)]
  }

  /** Every call of a recovery belongs to a goroutine. */
  ghost predicate OwnersOk(k: Conn) {
    forall d: nat, n: nat {:trigger BelongsTo(k, n, d)} :: BelongsTo(k, n, d) ==> n in k.retries
  }

  ghost predicate PassedOn(k: Conn) {
    && OwnersOk(k)
    && forall n {:trigger PassedAt(k, n)} :: n in k.retries ==> n in k.calls && PassedAt(k, n)
  }

  // ── What stays ──

  /** Calls stay what they are, and a result stays what it is; no new call is one of a recovery. */
  ghost predicate CallsStay(k: Conn, k': Conn) {
    && (forall d: nat {:trigger d in k.calls} :: d in k.calls ==>
          && d in k'.calls && k'.calls[d].origin == k.calls[d].origin && k'.calls[d].request == k.calls[d].request
          && k'.calls[d].retries == k.calls[d].retries
          && (k.calls[d].stage.Returned? ==> k'.calls[d].stage == k.calls[d].stage))
  }

  /** No new call is one of a recovery for n. */
  ghost predicate NoneNewFor(k: Conn, k': Conn, n: nat) {
    forall d: nat {:trigger BelongsTo(k', n, d)} :: BelongsTo(k', n, d) ==> d in k.calls
  }

  lemma FactsStay(k: Conn, k': Conn, n: nat)
    requires CallsStay(k, k') && NoneNewFor(k, k', n)
    ensures NoneBelongs(k, n) ==> NoneBelongs(k', n)
    ensures Recovered(k, n) ==> Recovered(k', n)
    ensures FailedRecovery(k, n) ==> FailedRecovery(k', n)
    ensures k'.core.streamId == k.core.streamId && OldStreamClosed(k, n) ==> OldStreamClosed(k', n)
    ensures forall r :: NextHeard(k, n, r) ==> NextHeard(k', n, r)
    ensures forall d: nat :: OpensFor(k', n, d) ==> OpensFor(k, n, d)
  {
    forall d: nat | BelongsTo(k', n, d) ensures BelongsTo(k, n, d) {}
    forall d: nat | OpensFor(k', n, d) ensures OpensFor(k, n, d) { assert BelongsTo(k', n, d); }
    if FailedRecovery(k, n) {
      var d: nat :| OpensFor(k, n, d) && k.calls[d].stage.Returned? && k.calls[d].stage.result.Failed?;
      assert OpensFor(k', n, d);
    }
    if OldStreamClosed(k, n) && k'.core.streamId == k.core.streamId {
      var d: nat :| d in k.calls && k.calls[d].origin == CloseFor(n) && k.calls[d].stage.Returned?
                    && k.calls[d].request == CloseStream(k.core.streamId);
      assert d in k'.calls && k'.calls[d].origin == CloseFor(n);
    }
    forall r | NextHeard(k, n, r) ensures NextHeard(k', n, r) {
      var d: nat :| d in k.calls && k.calls[d].origin == RetryOf(n) && k.calls[d].stage == Returned(r);
      assert d in k'.calls && k'.calls[d].origin == RetryOf(n);
    }
  }

  lemma PassedStays(k: Conn, k': Conn, n: nat)
    requires n in k.retries && n in k.calls && PassedAt(k, n) && n in k'.retries && k'.retries[n] == k.retries[n]
    requires CallsStay(k, k') && NoneNewFor(k, k', n)
    requires RetryOk(k, n) && (Leads(k.retries[n]) ==> k'.core.streamId == k.core.streamId)
    requires k.retries[n].Answered? ==> Sent(k'.core, n) == Sent(k.core, n)
    ensures n in k'.calls && PassedAt(k', n)
  {
    FactsStay(k, k', n);
    hide CallsStay, NoneNewFor, NoneBelongs, Recovered, FailedRecovery, OldStreamClosed, NextHeard, OpensFor, Sent;
    assert n in k'.calls && k'.calls[n].retries == k.calls[n].retries by { assert CallsStay(k, k'); }
  }

  /** What a step must leave of the goroutines: all but that of n as they were, and no recovery call but for n. */
  ghost predicate OnlyMoves(k: Conn, k': Conn, n: nat) {
    && CallsStay(k, k') && k.retries.Keys <= k'.retries.Keys
    && (forall d: nat, i: nat {:trigger BelongsTo(k', i, d)} ::
          BelongsTo(k', i, d) ==> d in k.calls || (i == n && n in k'.retries))
    && (forall i {:trigger k'.retries[i]} :: i in k'.retries && i != n ==>
          && i in k.retries && k'.retries[i] == k.retries[i]
          && (k.retries[i].Answered? ==> Sent(k'.core, i) == Sent(k.core, i))
          && (Leads(k.retries[i]) ==> k'.core.streamId == k.core.streamId))
  }

  lemma PassedOnKept(k: Conn, k': Conn, n: nat)
    requires PassedOn(k) && RecoveryOk(k) && OnlyMoves(k, k', n)
    requires n in k'.retries ==> n in k'.calls && PassedAt(k', n)
    ensures PassedOn(k')
  {
    hide PassedAt, Sent;
    forall d: nat, i: nat | BelongsTo(k', i, d) ensures i in k'.retries {
      if d in k.calls { assert BelongsTo(k, i, d); }
    }
    forall i | i in k'.retries ensures i in k'.calls && PassedAt(k', i) {
      if i != n {
        assert k'.retries[i] == k.retries[i];
        assert PassedAt(k, i);
        RetryOkAt(k, i);
        assert NoneNewFor(k, k', i);
        hide OwnersOk, PassedOn, RecoveryOk, CallsStay, RetryOk, NoneNewFor;
        PassedStays(k, k', i);
      }
    }
  }

  // ── The steps ──

  lemma BeginPasses(k: Conn, request: Request)
    requires Shape(k) && RecoveryOk(k) && PassedOn(k)
    ensures PassedOn(Begin(k, k.sent + 1, 0, request, User))
  {
    var k' := Begin(k, k.sent + 1, 0, request, User);
    hide WireId, NextId, PassedOn;
    assert OnlyMoves(k, k', 0);
    hide Begin, OnlyMoves, RecoveryOk;
    PassedOnKept(k, k', 0);
  }

  /** A caller moves on, or the waiters change: no goroutine and no channel of one is touched. */
  lemma CallerPasses(k: Conn, k': Conn)
    requires Shape(k) && RecoveryOk(k) && PassedOn(k) && CallsStay(k, k') && k'.calls.Keys == k.calls.Keys
    requires k'.retries == k.retries && k'.core.streamId == k.core.streamId
    requires forall i :: i in k.retries ==> Sent(k'.core, i) == Sent(k.core, i)
    ensures PassedOn(k')
  {
    hide WireId, PassedOn, RecoveryOk, Sent;
    assert OnlyMoves(k, k', 0) by { hide CallsStay; }
    hide OnlyMoves, CallsStay;
    PassedOnKept(k, k', 0);
  }

  lemma RestartPasses(k: Conn, m: ResponseMsg)
    requires Shape(k) && RecoveryOk(k) && PendingOk(k) && PassedOn(k) && m.id in k.core.pending
    ensures PassedOn(Restarts(k, m))
  {
    var k', n := Restarts(k, m), k.core.pending[m.id].chan;
    assert n in k.calls && n !in k.retries;
    hide WireId;
    forall d: nat ensures !BelongsTo(k', n, d) { assert BelongsTo(k', n, d) ==> BelongsTo(k, n, d); }
    assert OnlyMoves(k, k', n) by { hide PassedOn; }
    hide Restarts, OnlyMoves, RecoveryOk, PassedOn, OwnersOk;
    PassedOnKept(k, k', n);
  }

  lemma DeliverPasses(k: Conn, m: ResponseMsg)
    requires Shape(k) && RecoveryOk(k) && PendingOk(k) && PassedOn(k)
    ensures PassedOn(Delivers(k, m))
  {
    if m.response.SupersededFailure? && m.id in k.core.pending {
      RestartPasses(k, m);
      hide Restarts, PassedOn;
    } else {
      DeliveryTouchesNoGoroutine(k, m);
      hide PassedOn, RecoveryOk, Delivers, Shape, PendingOk;
      CallerPasses(k, Delivers(k, m));
    }
  }

  lemma DeliveryTouchesNoGoroutine(k: Conn, m: ResponseMsg)
    requires PendingOk(k) && !(m.response.SupersededFailure? && m.id in k.core.pending)
    ensures var k' := Delivers(k, m);
      && k'.calls == k.calls && k'.retries == k.retries && k'.core.streamId == k.core.streamId
      && forall i :: i in k.retries ==> Sent(k'.core, i) == Sent(k.core, i)
  {
    assert m.id in k.core.pending ==> k.core.pending[m.id].chan !in k.retries;
    hide PendingOk, Restarts, Dispatch;
    match m.response {
      case Success(id) => DispatchTouchesItsWaiter(k.core, m.id, Data(id));
      case Failure => DispatchTouchesItsWaiter(k.core, m.id, Failed(Rejected));
      case SupersededFailure =>
    }
  }

  lemma DispatchTouchesItsWaiter(c: Core, id: int32, result: Result)
    ensures Dispatch(c, id, result).streamId == c.streamId
    ensures forall i :: !(id in c.pending && i == c.pending[id].chan) ==> Sent(Dispatch(c, id, result), i) == Sent(c, i)
  {
  }

  lemma DrainPasses(k: Conn)
    requires Shape(k) && RecoveryOk(k) && PendingOk(k) && PassedOn(k)
    ensures PassedOn(k.(readEnded := true, core := Drain(k.core)))
  {
    var k' := k.(readEnded := true, core := Drain(k.core));
    assert forall i :: i in k.retries ==> !Awaited(k.core, i);
    hide WireId, PassedOn, RecoveryOk, Awaited;
    CallerPasses(k, k');
  }

  // ── The goroutine ──

  /** The goroutine of n goes on without a call of its own. */
  lemma MovePasses(k: Conn, k': Conn, n: nat)
    requires Shape(k) && RecoveryOk(k) && PassedOn(k) && n in k.retries && n in k.calls
    requires k'.calls == k.calls && n in k'.retries && k'.retries == k.retries[n := k'.retries[n]]
    requires k'.core.chans == k.core.chans && (k'.core.streamId == k.core.streamId || Leads(k.retries[n]))
    requires PassedAt(k', n)
    ensures PassedOn(k')
  {
    forall i | i in k.retries && Leads(k.retries[i]) && Leads(k.retries[n]) ensures i == n {
      RetryOkAt(k, i);
      RetryOkAt(k, n);
    }
    hide WireId, PassedAt, RecoveryOk;
    assert OnlyMoves(k, k', n);
    hide OnlyMoves, PassedOn;
    PassedOnKept(k, k', n);
  }

  /** The goroutine of n starts a call. */
  lemma CallPasses(k: Conn, n: nat, r: Retry, root: nat, retries: nat, request: Request, origin: Origin)
    requires Shape(k) && RecoveryOk(k) && PassedOn(k) && n in k.retries
    requires origin == CloseFor(n) || origin == OpenFor(n) || origin == RetryOf(n)
    requires var k' := SetRetry(Begin(k, root, retries, request, origin), n, r); n in k'.calls && PassedAt(k', n)
    ensures PassedOn(SetRetry(Begin(k, root, retries, request, origin), n, r))
  {
    hide Shape, PassedAt, RecoveryOk, PassedOn, Begin, Sent;
    var k' := SetRetry(Begin(k, root, retries, request, origin), n, r);
    BeginAdds(k, n, r, root, retries, request, origin);
    assert OnlyMoves(k, k', n);
    hide OnlyMoves;
    PassedOnKept(k, k', n);
  }

  /** What a new call of the goroutine looks like. */
  lemma BeginAdds(k: Conn, n: nat, r: Retry, root: nat, retries: nat, request: Request, origin: Origin)
    requires Shape(k) && n in k.retries
    ensures var k', c := SetRetry(Begin(k, root, retries, request, origin), n, r), k.sent + 1;
      && c !in k.calls && c in k'.calls && k'.calls.Keys == k.calls.Keys + {c} && n in k'.calls
      && k'.calls[c].origin == origin && k'.calls[c].request == request
      && (forall d :: d in k.calls ==> k'.calls[d] == k.calls[d])
      && k'.retries == k.retries[n := r] && k'.core.streamId == k.core.streamId
      && forall i :: i in k.retries ==> Sent(k'.core, i) == Sent(k.core, i)
  {
    hide WireId, NextId;
  }

  lemma LeadingPasses(k: Conn, n: nat)
    requires Shape(k) && RecoveryOk(k) && PassedOn(k) && n in k.retries && n in k.calls && k.retries[n].Leading?
    ensures PassedOn(Advances(k, n))
  {
    assert PassedAt(k, n);
    var c := k.sent + 1;
    BeginAdds(k, n, Closing(c), c, 0, CloseStream(k.core.streamId), CloseFor(n));
    var k' := SetRetry(Begin(k, c, 0, CloseStream(k.core.streamId), CloseFor(n)), n, Closing(c));
    hide Begin, Shape, RecoveryOk, PassedOn;
    forall d: nat ensures !OpensFor(k', n, d) { if d in k.calls { assert !BelongsTo(k, n, d); } }
    assert PassedAt(k', n);
    CallPasses(k, n, Closing(c), c, 0, CloseStream(k.core.streamId), CloseFor(n));
  }

  lemma ClosingPasses(k: Conn, n: nat)
    requires Shape(k) && RecoveryOk(k) && PassedOn(k) && n in k.retries && n in k.calls && k.retries[n].Closing?
    ensures PassedOn(Advances(k, n))
  {
    assert PassedAt(k, n);
    RetryOkAt(k, n);
    var d, c := k.retries[n].call, k.sent + 1;
    if k.calls[d].stage.Returned? {
      BeginAdds(k, n, Opening(c), c, 0, OpenStreamAssigned, OpenFor(n));
      var k' := SetRetry(Begin(k, c, 0, OpenStreamAssigned, OpenFor(n)), n, Opening(c));
      hide Begin, Shape, RecoveryOk, PassedOn;
      assert k'.calls[d] == k.calls[d] && OldStreamClosed(k', n);
      forall i: nat ensures OpensFor(k', n, i) ==> i == c { assert !OpensFor(k, n, i); }
      assert PassedAt(k', n);
      CallPasses(k, n, Opening(c), c, 0, OpenStreamAssigned, OpenFor(n));
    }
  }

  lemma OpeningPasses(k: Conn, n: nat)
    requires Shape(k) && RecoveryOk(k) && PassedOn(k) && n in k.retries && n in k.calls && k.retries[n].Opening?
    ensures PassedOn(Advances(k, n))
  {
    assert PassedAt(k, n);
    RetryOkAt(k, n);
    var c := k.retries[n].call;
    if k.calls[c].stage.Returned? {
      var k' := Advances(k, n);
      assert OpensFor(k, n, c);
      hide Shape, RecoveryOk, PassedOn;
      if k.calls[c].stage.result.Data? {
        forall d: nat | OpensFor(k', n, d) ensures d == c { assert OpensFor(k, n, d); }
        assert Recovered(k', n);
      } else {
        assert OpensFor(k', n, c) && FailedRecovery(k', n);
      }
      assert PassedAt(k', n);
      hide Advances, PassedAt;
      MovePasses(k, k', n);
    }
  }

  lemma ReadyPasses(k: Conn, n: nat)
    requires Shape(k) && RecoveryOk(k) && PassedOn(k) && n in k.retries && n in k.calls && k.retries[n].Ready?
    ensures PassedOn(Advances(k, n))
  {
    assert PassedAt(k, n);
    var call, c, request := k.calls[n], k.sent + 1, OnNewStream(k.calls[n].request, k.core.streamId);
    BeginAdds(k, n, Resent(c), call.root, call.retries + 1, request, RetryOf(n));
    var k' := SetRetry(Begin(k, call.root, call.retries + 1, request, RetryOf(n)), n, Resent(c));
    hide Begin, Shape, RecoveryOk, PassedOn;
    forall d: nat | OpensFor(k', n, d) ensures d in k.calls && k'.calls[d] == k.calls[d] && OpensFor(k, n, d) {}
    assert Recovered(k', n);
    CallPasses(k, n, Resent(c), call.root, call.retries + 1, request, RetryOf(n));
  }

  lemma AnswerPasses(k: Conn, n: nat, result: Result, resent: bool)
    requires Shape(k) && RecoveryOk(k) && PassedOn(k) && n in k.retries && n in k.calls && Sent(k.core, n) == []
    requires k.retries[n].Resent? || k.retries[n].GivingUp?
    requires if resent then Recovered(k, n) && NextHeard(k, n, result)
             else exists reason :: GaveUpFor(k, n, reason) && result == Failed(reason)
    ensures PassedOn(Answer(k, n, result, resent))
  {
    var k' := Answer(k, n, result, resent);
    assert [] + [result] == [result];
    assert Sent(k'.core, n) == [result] && k'.calls == k.calls;
    FactsStay(k, k', n);
    assert PassedAt(k', n) by {
      hide Recovered, NextHeard, FailedRecovery, OldStreamClosed, OpensFor, Shape, RecoveryOk, PassedOn;
      if !resent {
        var reason :| GaveUpFor(k, n, reason) && result == Failed(reason);
        assert GaveUpFor(k', n, reason);
      }
    }
    hide PassedAt, PassedOn, RecoveryOk;
    assert OnlyMoves(k, k', n) by { hide Recovered, NextHeard, FailedRecovery; }
    hide OnlyMoves, Answer;
    PassedOnKept(k, k', n);
  }

  lemma EndingPasses(k: Conn, n: nat)
    requires Shape(k) && RecoveryOk(k) && ChannelsOk(k) && PassedOn(k) && n in k.retries && n in k.calls
    requires k.retries[n].Resent? || k.retries[n].GivingUp?
    ensures PassedOn(Advances(k, n))
  {
    assert PassedAt(k, n) && ChannelOk(k, n);
    RetryOkAt(k, n);
    hide Shape, RecoveryOk, PassedOn, ChannelsOk, Answer, Recovered, FailedRecovery;
    match k.retries[n] {
      case Resent(c) =>
        if k.calls[c].stage.Returned? {
          assert NextHeard(k, n, k.calls[c].stage.result);
          AnswerPasses(k, n, k.calls[c].stage.result, true);
        }
      case GivingUp(reason) => AnswerPasses(k, n, Failed(reason), false);
    }
  }

  /** A goroutine that starts, or that stops waiting for another's recovery. */
  lemma StartingPasses(k: Conn, n: nat)
    requires Shape(k) && RecoveryOk(k) && PassedOn(k) && n in k.retries && n in k.calls
    requires k.retries[n].Started? || k.retries[n].Following?
    ensures PassedOn(Advances(k, n))
  {
    assert PassedAt(k, n);
    RetryOkAt(k, n);
    var k' := Advances(k, n);
    if k' != k {
      hide Shape, RecoveryOk, PassedOn;
      forall d: nat ensures BelongsTo(k', n, d) == BelongsTo(k, n, d) {}
      assert Recovered(k', n) by { forall d: nat ensures !OpensFor(k', n, d) { assert !BelongsTo(k, n, d); } }
      assert PassedAt(k', n) by { hide BelongsTo, Recovered; }
      hide Advances, PassedAt;
      MovePasses(k, k', n);
    }
  }

  lemma AdvancePasses(k: Conn, n: nat)
    requires Shape(k) && RecoveryOk(k) && ChannelsOk(k) && PassedOn(k) && n in k.retries && n in k.calls
    ensures PassedOn(Advances(k, n))
  {
    assert k.retries[n].Answered? ==> Advances(k, n) == k by { hide Shape, RecoveryOk, ChannelsOk, PassedOn, Begin; }
    hide Shape, RecoveryOk, ChannelsOk, PassedOn, Advances;
    match k.retries[n] {
      case Started => StartingPasses(k, n);
      case Following(_) => StartingPasses(k, n);
      case Leading => LeadingPasses(k, n);
      case Closing(_) => ClosingPasses(k, n);
      case Opening(_) => OpeningPasses(k, n);
      case Ready => ReadyPasses(k, n);
      case Answered(_) =>
      case _ => EndingPasses(k, n);
    }
  }

  /** The caller of n moves on. */
  lemma StagePasses(k: Conn, k': Conn, n: nat, stage: Stage)
    requires Shape(k) && RecoveryOk(k) && PassedOn(k) && n in k.calls && !k.calls[n].stage.Returned?
    requires k'.calls == k.calls[n := k.calls[n].(stage := stage)] && k'.retries == k.retries
    requires k'.core.chans == k.core.chans && k'.core.streamId == k.core.streamId
    ensures PassedOn(k')
  {
    hide Shape, PassedOn, RecoveryOk;
    assert CallsStay(k, k');
    hide CallsStay;
    CallerPasses(k, k');
  }

  lemma WritePasses(k: Conn, n: nat)
    requires Shape(k) && RecoveryOk(k) && PassedOn(k) && n in k.calls && k.calls[n].stage.Registered?
    ensures PassedOn(Writes(k, n))
  {
    hide Shape, PassedOn, RecoveryOk, WireId;
    StagePasses(k, Writes(k, n), n, Waiting);
  }

  lemma GivingUpPasses(k: Conn, n: nat, reason: Reason)
    requires Shape(k) && RecoveryOk(k) && PassedOn(k) && n in k.calls && !k.calls[n].stage.Returned?
    ensures PassedOn(GivesUp(k, n, reason))
  {
    hide Shape, PassedOn, RecoveryOk, WireId;
    StagePasses(k, GivesUp(k, n, reason), n, Returned(Failed(reason)));
  }

  lemma ReceivePasses(k: Conn, n: nat)
    requires Shape(k) && RecoveryOk(k) && PassedOn(k) && n in k.calls && k.calls[n].stage.Waiting? && Sent(k.core, n) != []
    ensures PassedOn(SetStage(k, n, Returned(Sent(k.core, n)[0])))
  {
    hide Shape, PassedOn, RecoveryOk, Sent;
    StagePasses(k, SetStage(k, n, Returned(Sent(k.core, n)[0])), n, Returned(Sent(k.core, n)[0]));
  }

  /** The server, the network and the closing of the connection touch neither calls nor goroutines. */
  lemma OutsidePasses(k: Conn, k': Conn)
    requires Shape(k) && RecoveryOk(k) && PassedOn(k) && k'.calls == k.calls && k'.retries == k.retries
    requires k'.core.chans == k.core.chans && k'.core.streamId == k.core.streamId
    ensures PassedOn(k')
  {
    hide Shape, PassedOn, RecoveryOk;
    assert CallsStay(k, k');
    hide CallsStay;
    CallerPasses(k, k');
  }

  lemma OutsideStepPasses(generation: nat, k: Conn, step: Step)
    requires Shape(k) && RecoveryOk(k) && PassedOn(k)
    requires step.Serve? || step.LoseRequest? || step.LoseResponse? || step.SessionEnds? || step.CloseConn?
    ensures PassedOn(Next(generation, k, step))
  {
    hide Shape, RecoveryOk, PassedOn, Handle;
    match step {
      case Serve(m, env) =>
        if m in k.requests && m.call in k.calls { OutsidePasses(k, Serves(generation, k, m, env)); }
        hide Serves;
      case LoseRequest(m) => OutsidePasses(k, k.(requests := k.requests - multiset{m}));
      case LoseResponse(m) => OutsidePasses(k, k.(responses := k.responses - multiset{m}));
      case SessionEnds => OutsidePasses(k, k.(streams := map[]));
      case CloseConn => OutsidePasses(k, k.(core := k.core.(closed := true)));
    }
  }

  lemma WriteFailsPasses(generation: nat, k: Conn, n: nat, leaked: bool)
    requires Shape(k) && RecoveryOk(k) && PassedOn(k)
    ensures PassedOn(Next(generation, k, WriteFails(n, leaked)))
  {
    if n in k.calls && k.calls[n].stage.Registered? {
      if leaked {
        WritePasses(k, n);
        assert Shape(Writes(k, n)) && RecoveryOk(Writes(k, n)) by { WritesKeepShape(k, n); }
        hide Shape, RecoveryOk, PassedOn, GivesUp;
        assert !Writes(k, n).calls[n].stage.Returned?;
        hide Writes;
        GivingUpPasses(Writes(k, n), n, SendFailed);
      } else {
        hide Shape, RecoveryOk, PassedOn, GivesUp;
        GivingUpPasses(k, n, SendFailed);
      }
    }
  }

  lemma WritesKeepShape(k: Conn, n: nat)
    requires Shape(k) && RecoveryOk(k) && n in k.calls && k.calls[n].stage.Registered?
    ensures Shape(Writes(k, n)) && RecoveryOk(Writes(k, n))
  {
    hide WireId;
    var k' := Writes(k, n);
    forall i | i in k'.retries ensures i in k'.calls && RetryOk(k', i) { RetryOkAt(k, i); }
  }

  lemma CallerStepPasses(generation: nat, k: Conn, step: Step)
    requires Shape(k) && RecoveryOk(k) && PassedOn(k) && (step.Write? || step.Receive? || step.Cancel?)
    ensures PassedOn(Next(generation, k, step))
  {
    hide Shape, RecoveryOk, PassedOn, Writes, GivesUp, SetStage, Sent;
    match step {
      case Write(n) => if n in k.calls && k.calls[n].stage.Registered? { WritePasses(k, n); }
      case Receive(n) => if n in k.calls && k.calls[n].stage.Waiting? && Sent(k.core, n) != [] { ReceivePasses(k, n); }
      case Cancel(n) => if n in k.calls && k.calls[n].stage.Waiting? { GivingUpPasses(k, n, Cancelled); }
    }
  }

  lemma NextPasses(generation: nat, k: Conn, step: Step)
    requires Inv(k) && PassedOn(k)
    ensures PassedOn(Next(generation, k, step))
  {
    assert Shape(k) && RecoveryOk(k) && ChannelsOk(k) && PendingOk(k);
    hide Inv, Shape, RecoveryOk, ChannelsOk, PendingOk, PassedOn;
    if step.WriteFails? {
      hide Next;
      WriteFailsPasses(generation, k, step.call, step.leaked);
    } else if step.Write? || step.Receive? || step.Cancel? {
      hide Next;
      CallerStepPasses(generation, k, step);
    } else if step.Serve? || step.LoseRequest? || step.LoseResponse? || step.SessionEnds? || step.CloseConn? {
      hide Next;
      OutsideStepPasses(generation, k, step);
    } else {
      hide Next, Begin, Delivers, Advances, Drain;
      ClientStepIs(generation, k, step);
      match step {
        case UserCalls(request) => BeginPasses(k, request);
        case Deliver(m) => if m in k.responses { DeliverPasses(k, m); }
        case Advance(n) => if n in k.retries && n in k.calls { AdvancePasses(k, n); }
        case ReadEnds => DrainPasses(k);
      }
    }
  }

  lemma {:induction false} PassedAfter(events: seq<Event>, c: nat)
    requires FreeIds(events, c)
    ensures c in After(events).conns ==> PassedOn(After(events).conns[c])
  {
    hide Inv, TakesFreeId, Next, PassedOn, Supersede;
    if events != [] {
      var before, last := events[..|events| - 1], events[|events| - 1];
      var s := After(before);
      PassedAfter(before, c);
      InvAfter(before, c);
      if c in s.conns {
        match last
        case Connects(_) =>
        case Steps(d, step) => if d == c { NextPasses(s.generation, s.conns[c], step); }
        case Evolves => SwapPasses(s.conns[c], Supersede(s.conns[c].streams, s.generation + 1));
      } else {
        NothingToPass();
      }
    }
  }

  lemma SwapPasses(k: Conn, streams: Streams)
    requires Inv(k) && PassedOn(k)
    ensures PassedOn(k.(streams := streams))
  {
    hide WireId, PassedOn, PendingOk, ChannelsOk, NetworkOk, ChainOk, LogOk, RecoveryOk, AnswersOk, IdsApart, Ancestry;
    CallerPasses(k, k.(streams := streams));
  }

  lemma NothingToPass()
    ensures PassedOn(NEW_CONN)
  {
  }

  // ── Cancellation ──

  /** Nobody is told by a channel that he was cancelled. */
  ghost predicate NoneTold(c: Core) {
    forall n {:trigger Sent(c, n)} :: Failed(Cancelled) !in Sent(c, n)
  }

  /** No retry was cancelled, and nobody is told that he was. */
  ghost predicate Uncancelled(k: Conn) {
    && NoneTold(k.core)
    && (forall d {:trigger k.calls[d]} :: d in k.calls && k.calls[d].origin.RetryOf? ==>
          k.calls[d].stage != Returned(Failed(Cancelled)))
    && (forall n {:trigger k.retries[n]} :: n in k.retries ==> k.retries[n] != GivingUp(Cancelled))
  }

  lemma SendTells(c: Core, n: nat, result: Result)
    requires NoneTold(c) && result != Failed(Cancelled)
    ensures NoneTold(Send(c, n, result))
  {
    forall m ensures Failed(Cancelled) !in Sent(Send(c, n, result), m) { assert Failed(Cancelled) !in Sent(c, m); }
  }

  lemma SameChannelsTell(c: Core, c': Core)
    requires NoneTold(c) && c'.chans == c.chans
    ensures NoneTold(c')
  {
    forall m ensures Failed(Cancelled) !in Sent(c', m) { assert Sent(c', m) == Sent(c, m); }
  }

  lemma NewChannelTells(c: Core, c': Core, n: nat)
    requires NoneTold(c) && c'.chans == c.chans[n := []]
    ensures NoneTold(c')
  {
    forall m ensures Failed(Cancelled) !in Sent(c', m) {
      assert Sent(c', m) == [] || Sent(c', m) == Sent(c, m);
    }
  }

  lemma DrainTells(c: Core)
    requires NoneTold(c)
    ensures NoneTold(Drain(c))
  {
    hide Awaited;
    forall m ensures Failed(Cancelled) !in Sent(Drain(c), m) {
      assert Failed(Cancelled) !in Sent(c, m);
      assert Sent(Drain(c), m) == Sent(c, m) || Sent(Drain(c), m) == Sent(c, m) + [Failed(ReadFailed)];
    }
  }

  /** A goroutine that answers passes on what no retry was told, or that it gives up. */
  lemma AnswerUncancelled(k: Conn, n: nat)
    requires RecoveryOk(k) && Uncancelled(k) && n in k.retries && n in k.calls
    requires k.retries[n].Resent? || k.retries[n].GivingUp?
    ensures Uncancelled(Advances(k, n))
  {
    RetryOkAt(k, n);
    hide RecoveryOk, NoneTold, Send, Begin;
    match k.retries[n] {
      case Resent(c) => if k.calls[c].stage.Returned? { SendTells(k.core, n, k.calls[c].stage.result); }
      case GivingUp(reason) => SendTells(k.core, n, Failed(reason));
    }
  }

  /** A goroutine that starts a call makes a new channel. */
  lemma CallUncancelled(k: Conn, n: nat, r: Retry, root: nat, retries: nat, request: Request, origin: Origin)
    requires Uncancelled(k) && r != GivingUp(Cancelled)
    ensures Uncancelled(SetRetry(Begin(k, root, retries, request, origin), n, r))
  {
    var k' := SetRetry(Begin(k, root, retries, request, origin), n, r);
    hide NoneTold, NextId, WireId;
    NewChannelTells(k.core, k'.core, k.sent + 1);
  }

  lemma CallingUncancelled(k: Conn, n: nat)
    requires Uncancelled(k) && n in k.retries && n in k.calls
    requires k.retries[n].Leading? || k.retries[n].Closing? || k.retries[n].Ready?
    ensures Uncancelled(Advances(k, n))
  {
    hide Uncancelled, Begin;
    var call, id, c := k.calls[n], k.core.streamId, k.sent + 1;
    match k.retries[n] {
      case Leading => CallUncancelled(k, n, Closing(c), c, 0, CloseStream(id), CloseFor(n));
      case Closing(_) => CallUncancelled(k, n, Opening(c), c, 0, OpenStreamAssigned, OpenFor(n));
      case Ready => CallUncancelled(k, n, Resent(c), call.root, call.retries + 1, OnNewStream(call.request, id), RetryOf(n));
    }
  }

  lemma MoveUncancelled(k: Conn, k': Conn, n: nat)
    requires Uncancelled(k) && k'.calls == k.calls && k'.core.chans == k.core.chans
    requires n in k'.retries && k'.retries == k.retries[n := k'.retries[n]] && k'.retries[n] != GivingUp(Cancelled)
    ensures Uncancelled(k')
  {
    hide NoneTold;
    SameChannelsTell(k.core, k'.core);
  }

  lemma StartedUncancelled(k: Conn, n: nat)
    requires Uncancelled(k) && n in k.retries && n in k.calls && (k.retries[n].Started? || k.retries[n].Following?)
    ensures Uncancelled(Advances(k, n))
  {
    hide Uncancelled, Begin, Answer;
    if Advances(k, n) != k { MoveUncancelled(k, Advances(k, n), n); }
  }

  lemma OpeningUncancelled(k: Conn, n: nat)
    requires Uncancelled(k) && n in k.retries && n in k.calls && k.retries[n].Opening?
    ensures Uncancelled(Advances(k, n))
  {
    hide Uncancelled, Begin, Answer;
    if Advances(k, n) != k { MoveUncancelled(k, Advances(k, n), n); }
  }

  lemma AnsweredStays(k: Conn, n: nat)
    requires n in k.retries && n in k.calls && k.retries[n].Answered?
    ensures Advances(k, n) == k
  {
  }

  lemma AdvanceUncancelled(k: Conn, n: nat)
    requires RecoveryOk(k) && Uncancelled(k) && n in k.retries && n in k.calls
    ensures Uncancelled(Advances(k, n))
  {
    hide RecoveryOk, Uncancelled, Advances;
    match k.retries[n] {
      case Leading => CallingUncancelled(k, n);
      case Closing(_) => CallingUncancelled(k, n);
      case Ready => CallingUncancelled(k, n);
      case Resent(_) => AnswerUncancelled(k, n);
      case GivingUp(_) => AnswerUncancelled(k, n);
      case Opening(_) => OpeningUncancelled(k, n);
      case Answered(_) => assert Advances(k, n) == k by { AnsweredStays(k, n); }
      case _ => StartedUncancelled(k, n);
    }
  }

  lemma DispatchTells(c: Core, id: int32, result: Result)
    requires NoneTold(c) && result != Failed(Cancelled)
    ensures NoneTold(Dispatch(c, id, result))
  {
    hide NoneTold, Send;
    if id in c.pending {
      SameChannelsTell(c, Forget(c, id));
      SendTells(Forget(c, id), c.pending[id].chan, result);
    }
  }

  lemma DeliverUncancelled(k: Conn, m: ResponseMsg)
    requires Uncancelled(k)
    ensures Uncancelled(Delivers(k, m))
  {
    hide NoneTold, Dispatch;
    match m.response {
      case Success(id) => DispatchTells(k.core, m.id, Data(id));
      case Failure => DispatchTells(k.core, m.id, Failed(Rejected));
      case SupersededFailure => SameChannelsTell(k.core, Forget(k.core, m.id));
    }
  }

  lemma DrainUncancelled(k: Conn)
    requires Uncancelled(k)
    ensures Uncancelled(k.(readEnded := true, core := Drain(k.core)))
  {
    hide NoneTold, Drain;
    DrainTells(k.core);
  }

  lemma BeginUncancelled(k: Conn, request: Request)
    requires Uncancelled(k)
    ensures Uncancelled(Begin(k, k.sent + 1, 0, request, User))
  {
    var k' := Begin(k, k.sent + 1, 0, request, User);
    hide NoneTold, NextId, WireId;
    NewChannelTells(k.core, k'.core, k.sent + 1);
  }

  lemma ReturnUncancelled(k: Conn, k': Conn, n: nat, stage: Stage)
    requires Uncancelled(k) && n in k.calls && k'.calls == k.calls[n := k.calls[n].(stage := stage)]
    requires k'.core.chans == k.core.chans && k'.retries == k.retries
    requires stage == Returned(Failed(Cancelled)) ==> !k.calls[n].origin.RetryOf?
    ensures Uncancelled(k')
  {
    hide NoneTold;
    SameChannelsTell(k.core, k'.core);
  }

  lemma OutsideUncancelled(k: Conn, k': Conn)
    requires Uncancelled(k) && k'.calls == k.calls && k'.retries == k.retries && k'.core.chans == k.core.chans
    ensures Uncancelled(k')
  {
    hide NoneTold;
    SameChannelsTell(k.core, k'.core);
  }

  lemma CallerUncancelled(generation: nat, k: Conn, step: Step)
    requires Uncancelled(k) && (step.Write? || step.WriteFails? || step.Receive? || step.Cancel?)
    ensures Uncancelled(Next(generation, k, step))
  {
    var k' := Next(generation, k, step);
    hide WireId, Uncancelled;
    match step {
      case Write(n) => if n in k.calls && k.calls[n].stage.Registered? { ReturnUncancelled(k, k', n, Waiting); }
      case WriteFails(n, _) =>
        if n in k.calls && k.calls[n].stage.Registered? { ReturnUncancelled(k, k', n, Returned(Failed(SendFailed))); }
      case Receive(n) =>
        if n in k.calls && k.calls[n].stage.Waiting? && Sent(k.core, n) != [] {
          NoneSentCancelled(k, n);
          ReturnUncancelled(k, k', n, Returned(Sent(k.core, n)[0]));
        }
      case Cancel(n) =>
        if n in k.calls && k.calls[n].stage.Waiting? && Cancellable(k.calls[n].origin) {
          ReturnUncancelled(k, k', n, Returned(Failed(Cancelled)));
        }
    }
  }

  lemma NoneSentCancelled(k: Conn, n: nat)
    requires Uncancelled(k) && Sent(k.core, n) != []
    ensures Sent(k.core, n)[0] != Failed(Cancelled)
  {
    assert Sent(k.core, n)[0] in Sent(k.core, n);
  }

  lemma OutsideStepUncancelled(generation: nat, k: Conn, step: Step)
    requires Uncancelled(k)
    requires step.Serve? || step.LoseRequest? || step.LoseResponse? || step.SessionEnds? || step.CloseConn?
    ensures Uncancelled(Next(generation, k, step))
  {
    hide Uncancelled, Handle;
    match step {
      case Serve(m, env) =>
        if m in k.requests && m.call in k.calls { OutsideUncancelled(k, Serves(generation, k, m, env)); }
        hide Serves;
      case LoseRequest(m) => OutsideUncancelled(k, k.(requests := k.requests - multiset{m}));
      case LoseResponse(m) => OutsideUncancelled(k, k.(responses := k.responses - multiset{m}));
      case SessionEnds => OutsideUncancelled(k, k.(streams := map[]));
      case CloseConn => OutsideUncancelled(k, k.(core := k.core.(closed := true)));
    }
  }

  lemma NextUncancelled(generation: nat, k: Conn, step: Step)
    requires RecoveryOk(k) && Uncancelled(k)
    ensures Uncancelled(Next(generation, k, step))
  {
    hide RecoveryOk, Uncancelled, Begin, Delivers, Advances, Drain;
    if step.Write? || step.WriteFails? || step.Receive? || step.Cancel? {
      hide Next;
      CallerUncancelled(generation, k, step);
    } else if step.Serve? || step.LoseRequest? || step.LoseResponse? || step.SessionEnds? || step.CloseConn? {
      hide Next;
      OutsideStepUncancelled(generation, k, step);
    } else {
      hide Next;
      ClientStepIs(generation, k, step);
      match step {
        case UserCalls(request) => BeginUncancelled(k, request);
        case Deliver(m) => if m in k.responses { DeliverUncancelled(k, m); }
        case Advance(n) => if n in k.retries && n in k.calls { AdvanceUncancelled(k, n); }
        case ReadEnds => DrainUncancelled(k);
      }
    }
  }

  lemma {:induction false} UncancelledAfter(events: seq<Event>, c: nat)
    requires FreeIds(events, c)
    ensures c in After(events).conns ==> Uncancelled(After(events).conns[c])
  {
    hide Inv, TakesFreeId, Next, Uncancelled, Supersede;
    if events != [] {
      var before, last := events[..|events| - 1], events[|events| - 1];
      var s := After(before);
      UncancelledAfter(before, c);
      InvAfter(before, c);
      if c in s.conns {
        match last
        case Connects(_) =>
        case Steps(d, step) =>
          if d == c {
            InvHasRecovery(s.conns[c]);
            NextUncancelled(s.generation, s.conns[c], step);
          }
        case Evolves =>
          OutsideUncancelled(s.conns[c], s.conns[c].(streams := Supersede(s.conns[c].streams, s.generation + 1)));
      } else {
        NothingCancelled();
      }
    }
  }

  lemma InvHasRecovery(k: Conn)
    requires Inv(k)
    ensures RecoveryOk(k)
  {
  }

  lemma NothingCancelled()
    ensures Uncancelled(NEW_CONN)
  {
  }

  // ── Waiting for a recovery ──

  /**
   A goroutine whose call has retries left leads a recovery when nobody does, and follows the
   one who does otherwise; a follower waits exactly as long as that one leads, whatever comes
   of it; and a leader's stream is the client's from the moment it is there.
   */
  lemma FollowersWait(generation: nat, k: Conn, n: nat)
    requires RecoveryOk(k) && n in k.retries && n in k.calls
    ensures k.retries[n].Started? && k.calls[n].retries < MAX_STREAM_RETRIES ==>
      var k' := Next(generation, k, Advance(n));
      if exists l :: l in k.retries && Leads(k.retries[l])
      then k'.retries[n].Following? && k'.retries[n].leader in k.retries && Leads(k.retries[k'.retries[n].leader])
      else k'.retries[n] == Leading
    ensures k.retries[n].Following? ==>
      var k', l := Next(generation, k, Advance(n)), k.retries[n].leader;
      if l in k.retries && Leads(k.retries[l]) then k' == k else k' == SetRetry(k, n, Ready)
    ensures k.retries[n].Opening? && k.retries[n].call in k.calls && k.calls[k.retries[n].call].stage.Returned? ==>
      var k', result := Next(generation, k, Advance(n)), k.calls[k.retries[n].call].stage.result;
      && (forall l :: l in k'.retries ==> !Leads(k'.retries[l]))
      && (result.Data? ==> k'.retries[n] == Ready && k'.core.streamId == result.streamId)
      && (result.Failed? ==> k'.retries[n] == GivingUp(RecoveryFailed) && k'.core.streamId == k.core.streamId)
  {
    forall l | l in k.retries ensures Leads(k.retries[l]) <==> k.core.recovering == Some(l) { RetryOkAt(k, l); }
    RetryOkAt(k, n);
    hide RecoveryOk, RetryOk, WireId, Begin, Send;
  }

  // ── The theorems ──

  /**
   A recovery asks for a new stream only when its request to close the superseded one has
   returned, and it asks for both by its own calls and for nothing else.
   */
  lemma RecoveryClosesFirst(events: seq<Event>, c: nat, k: Conn, n: nat)
    requires Reached(events, c, k) && n in k.retries
    ensures k.retries[n].Closing? ==>
      var d := k.retries[n].call; d in k.calls && k.calls[d].request == CloseStream(k.core.streamId)
    ensures k.retries[n].Opening? ==>
      && OldStreamClosed(k, n)
      && var d := k.retries[n].call; d in k.calls && k.calls[d].request == OpenStreamAssigned
  {
    PassedAfter(events, c);
    ReachedIsOk(events, c, k);
    hide Inv, After, FreeIds, EndOk, StreamsOk;
    assert PassedAt(k, n);
    RetryOkAt(k, n) by { assert Inv(k); }
  }

  /**
   What a retry goroutine has told its caller: that the stream was superseded, exactly when the
   retries of the call were used up; that the recovery failed, exactly when it did; and
   otherwise what the next attempt was told.
   */
  lemma CallersHearTheTruth(events: seq<Event>, c: nat, k: Conn, n: nat)
    requires Reached(events, c, k) && n in k.retries && k.retries[n].Answered?
    ensures n in k.calls && |Sent(k.core, n)| == 1
    ensures if k.retries[n].resent then Recovered(k, n) && NextHeard(k, n, Sent(k.core, n)[0])
            else exists reason :: GaveUpFor(k, n, reason) && Sent(k.core, n) == [Failed(reason)]
  {
    PassedAfter(events, c);
    ReachedIsOk(events, c, k);
    RetryOkAt(k, n);
    hide Inv, After, FreeIds, Recovered, NextHeard, GaveUpFor, EndOk, StreamsOk;
    assert PassedAt(k, n);
  }

  /**
   A context that ends reaches the calls made with it and no retry: a retry never returns as
   cancelled, and neither does a call that was superseded, once its goroutine has it.
   */
  lemma RetriesAreNotCancelled(events: seq<Event>, c: nat, k: Conn, n: nat)
    requires Reached(events, c, k) && n in k.calls
    ensures k.calls[n].origin.RetryOf? ==> k.calls[n].stage != Returned(Failed(Cancelled))
    ensures Sent(k.core, n) != [Failed(Cancelled)]
  {
    UncancelledAfter(events, c);
    hide After, FreeIds;
    if Sent(k.core, n) != [] { NoneSentCancelled(k, n); }
  }
}
