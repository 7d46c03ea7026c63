/**
 The invariant of one request under way, with a server that can serve and a network that
 delivers: which single call of it is current, what its stream is, and how many swaps of the
 database its retries still make up for. Every forward step keeps it, and a swap costs one retry.
 */
module RetryUnderWay {
  import opened NativeTypes
  import opened WsStreams
  import opened RetryClient
  import opened RetryProtocol
  import opened RetryInvariants
  import opened RetrySteps
  import opened RetryTheorems
  import opened RetryProgress
  import opened RetryLiveness

  // ── The invariant of one request under way ──

  /** Call n still waits for its answer. */
  ghost predicate Unanswered(k: Conn, n: nat) {
    n in k.calls && !k.calls[n].stage.Returned? && Sent(k.core, n) == []
  }

  /** The goroutine has not repeated its call yet. */
  predicate Early(r: Retry) {
    r.Started? || r.Leading? || r.Closing? || r.Opening? || r.Ready?
  }

  /** The request under way is at its call n: unanswered, or about to be repeated. */
  ghost predicate Current(k: Conn, n: nat) {
    && n in k.calls && k.calls[n].request.OnStream?
    && if n in k.retries then Early(k.retries[n]) else Unanswered(k, n)
  }

  /** The request may use the stream for that attempt: it exists, and the swaps it has seen are within the budget. */
  predicate Fits(streams: Streams, id: int32, attempt: nat, budget: nat) {
    id in streams && attempt + (if streams[id].superseded then 1 else 0) <= budget
  }

  predicate ServesARecovery(k: Conn, n: nat)
    requires n in k.calls
  {
    match k.calls[n].origin
    case CloseFor(p) => k.calls[n].request.CloseStream? && p in k.retries && k.retries[p] == Closing(n)
    case OpenFor(p) => k.calls[n].request.OpenStreamAssigned? && p in k.retries && k.retries[p] == Opening(n)
    case _ => false
  }

  /** Calls before the request have returned; the calls since then were answered with success if at all. */
  ghost predicate CallFits(k: Conn, first: nat, budget: nat, n: nat)
    requires n in k.calls
  {
    var call := k.calls[n];
    && (n < first ==> call.stage.Returned?)
    && (call.stage.Registered? ==> Sent(k.core, n) == [])
    && (n >= first && call.stage.Returned? ==> call.stage.result.Data?)
    && (n >= first ==> forall i :: 0 <= i < |Sent(k.core, n)| ==> Sent(k.core, n)[i].Data?)
    && (call.stage.Registered? && call.request.OnStream? ==>
          call.request.stream == k.core.streamId && Fits(k.streams, k.core.streamId, call.retries, budget))
    && (Unanswered(k, n) && !call.request.OnStream? ==> ServesARecovery(k, n))
  }

  ghost predicate Told(k: Conn, n: nat, id: int32) {
    n in k.calls && (Sent(k.core, n) == [Data(id)] || k.calls[n].stage == Returned(Data(id)))
  }

  ghost predicate RetryFits(k: Conn, first: nat, budget: nat, n: nat)
    requires n in k.retries && n in k.calls
  {
    var r, next := k.retries[n], k.calls[n].retries + 1;
    && (n < first ==> r.Answered?)
    && !r.Following? && !r.GivingUp?
    && (Early(r) ==> next <= budget)
    && (r.Ready? ==> Fits(k.streams, k.core.streamId, next, budget))
    && (r.Opening? ==>
          forall id {:trigger Told(k, r.call, id)} :: Told(k, r.call, id) ==> Fits(k.streams, id, next, budget))
  }

  ghost predicate RequestFits(k: Conn, budget: nat, m: RequestMsg) {
    && Unanswered(k, m.call)
    && (m.request.OnStream? ==>
          m.request.stream == k.core.streamId && Fits(k.streams, k.core.streamId, k.calls[m.call].retries, budget))
  }

  ghost predicate ResponseFits(k: Conn, budget: nat, r: ResponseMsg) {
    && Unanswered(k, r.call) && !r.response.Failure?
    && var call := k.calls[r.call];
       && (r.response.SupersededFailure? ==> call.retries + 1 <= budget)
       && (r.response.Success? && call.request.OnStream? ==> k.core.streamId in k.streams)
       && (r.response.Success? && call.origin.OpenFor? ==>
             var p := call.origin.leader;
             p in k.calls && Fits(k.streams, r.response.streamId, k.calls[p].retries + 1, budget))
  }

  ghost predicate OneCurrent(k: Conn) {
    forall a: nat, b: nat {:trigger Current(k, a), Current(k, b)} :: Current(k, a) && Current(k, b) ==> a == b
  }

  /** With no request under way the client's stream is there for the next one. */
  ghost predicate StreamKept(k: Conn) {
    (exists n: nat :: Current(k, n)) || k.core.streamId in k.streams
  }

  ghost predicate CallsFit(k: Conn, first: nat, budget: nat) {
    forall n {:trigger CallFits(k, first, budget, n)} :: n in k.calls ==> CallFits(k, first, budget, n)
  }

  ghost predicate RetriesFit(k: Conn, first: nat, budget: nat) {
    forall n {:trigger RetryFits(k, first, budget, n)} :: n in k.retries ==> n in k.calls && RetryFits(k, first, budget, n)
  }

  ghost predicate MessagesFit(k: Conn, budget: nat) {
    && (forall m :: m in k.requests ==> RequestFits(k, budget, m))
    && (forall r :: r in k.responses ==> ResponseFits(k, budget, r))
  }

  /** The request whose first call is `first` is under way or over, and the swaps so far are within the budget. */
  ghost predicate UnderWay(k: Conn, first: nat, budget: nat) {
    && !k.core.closed && !k.readEnded
    && OneCurrent(k) && StreamKept(k)
    && CallsFit(k, first, budget) && RetriesFit(k, first, budget) && MessagesFit(k, budget)
  }

  // ── The start ──

  /** Nothing is under way. */
  ghost predicate Quiet(k: Conn) {
    && (forall n :: n in k.calls ==> k.calls[n].stage.Returned?)
    && (forall n :: n in k.retries ==> k.retries[n].Answered?)
    && k.requests == multiset{} && k.responses == multiset{}
  }

  /** The connection is open, and its stream exists on the server. */
  predicate InUse(k: Conn) {
    !k.core.closed && !k.readEnded && k.core.streamId in k.streams
  }

  /** Swaps that a request started now has already to make up for. */
  function Missed(k: Conn): nat
    requires InUse(k)
  {
    if k.streams[k.core.streamId].superseded then 1 else 0
  }

  lemma RequestStarts(k: Conn)
    requires Shape(k) && RecoveryOk(k) && Quiet(k) && InUse(k)
    ensures UnderWay(Begin(k, k.sent + 1, 0, OnStream(k.core.streamId), User), k.sent + 1, Missed(k))
  {
    hide WireId, NextId;
    var k', n := Begin(k, k.sent + 1, 0, OnStream(k.core.streamId), User), k.sent + 1;
    assert k'.calls == k.calls[n := Call(n, 0, OnStream(k.core.streamId), User, Registered)];
    assert n !in k.retries && Sent(k'.core, n) == [];
    hide Shape, RecoveryOk;
    assert Current(k', n) && Unanswered(k', n);
    hide Register;
    forall i | i in k'.calls ensures CallFits(k', n, Missed(k), i) {}
    hide CallFits;
    forall i | i in k'.retries ensures i in k'.calls && RetryFits(k', n, Missed(k), i) {}
  }

  // ── What the steps keep ──

  ghost predicate SameStreams(k: Conn, k': Conn) {
    k'.streams == k.streams && k'.core.streamId == k.core.streamId
  }

  /** Call n has the same request, stage and channel. */
  ghost predicate SameCall(k: Conn, k': Conn, n: nat) {
    n in k.calls && n in k'.calls && k'.calls[n] == k.calls[n] && Sent(k'.core, n) == Sent(k.core, n)
  }

  lemma CallStillFits(k: Conn, k': Conn, first: nat, budget: nat, n: nat)
    requires SameStreams(k, k') && SameCall(k, k', n) && CallFits(k, first, budget, n)
    requires ServesARecovery(k, n) ==> ServesARecovery(k', n)
    ensures CallFits(k', first, budget, n)
  {
  }

  lemma RetryStillFits(k: Conn, k': Conn, first: nat, budget: nat, n: nat)
    requires n in k.retries && n in k.calls && RetryFits(k, first, budget, n)
    requires n in k'.retries && n in k'.calls
    requires k'.retries[n] == k.retries[n] && k'.calls[n].retries == k.calls[n].retries
    requires SameStreams(k, k')
    requires k.retries[n].Opening? ==> forall id :: Told(k', k.retries[n].call, id) ==> Told(k, k.retries[n].call, id)
    ensures RetryFits(k', first, budget, n)
  {
    hide Told, Fits;
  }

  /** No call is answered or made anew, and what was said of each stays. */
  ghost predicate SameKinds(k: Conn, k': Conn) {
    forall n: nat {:trigger n in k.calls} :: n in k.calls ==>
      && n in k'.calls && k'.calls[n].retries == k.calls[n].retries
      && k'.calls[n].request == k.calls[n].request && k'.calls[n].origin == k.calls[n].origin
  }

  lemma RequestStillFits(k: Conn, k': Conn, budget: nat, m: RequestMsg)
    requires SameStreams(k, k') && SameKinds(k, k') && RequestFits(k, budget, m)
    requires Unanswered(k, m.call) ==> Unanswered(k', m.call)
    ensures RequestFits(k', budget, m)
  {
    hide Fits;
  }

  lemma ResponseStillFits(k: Conn, k': Conn, budget: nat, r: ResponseMsg)
    requires SameStreams(k, k') && SameKinds(k, k') && ResponseFits(k, budget, r)
    requires Unanswered(k, r.call) ==> Unanswered(k', r.call)
    ensures ResponseFits(k', budget, r)
  {
    hide Fits;
  }

  lemma RetryFitsAt(k: Conn, first: nat, budget: nat, n: nat)
    requires RetriesFit(k, first, budget) && n in k.retries
    ensures n in k.calls && RetryFits(k, first, budget, n)
  {
  }

  /** The same call is current, if any. */
  ghost predicate SameCurrent(k: Conn, k': Conn) {
    forall n: nat {:trigger Current(k, n)} {:trigger Current(k', n)} :: Current(k', n) == Current(k, n)
  }

  lemma CurrentStays(k: Conn, k': Conn)
    requires OneCurrent(k) && StreamKept(k) && SameCurrent(k, k') && SameStreams(k, k')
    ensures OneCurrent(k') && StreamKept(k')
  {
    hide Current;
    if n: nat :| Current(k, n) { assert Current(k', n); }
  }

  /** The caller of n moves on, and nothing changes for the others. */
  ghost predicate StageMoves(k: Conn, k': Conn, n: nat) {
    && n in k.calls && n in k'.calls && k'.calls == k.calls[n := k'.calls[n]]
    && k'.calls[n] == k.calls[n].(stage := k'.calls[n].stage)
    && k'.core == k.core && k'.streams == k.streams && k'.retries == k.retries && k'.readEnded == k.readEnded
    && Unanswered(k', n) == Unanswered(k, n)
    && (forall id :: Told(k', n, id) ==> Told(k, n, id))
  }

  lemma StageKeepsFits(k: Conn, k': Conn, first: nat, budget: nat, n: nat)
    requires UnderWay(k, first, budget) && StageMoves(k, k', n) && CallFits(k', first, budget, n)
    ensures OneCurrent(k') && StreamKept(k') && CallsFit(k', first, budget) && RetriesFit(k', first, budget)
  {
    hide CallFits, RetryFits, Fits, MessagesFit;
    assert SameCurrent(k, k') by { hide OneCurrent, StreamKept, RetriesFit, CallsFit; }
    CurrentStays(k, k');
    hide OneCurrent, StreamKept;
    forall i | i in k'.calls ensures CallFits(k', first, budget, i) {
      if i != n {
        assert CallFits(k, first, budget, i);
        CallStillFits(k, k', first, budget, i);
      }
    }
    forall i | i in k'.retries ensures i in k'.calls && RetryFits(k', first, budget, i) {
      RetryFitsAt(k, first, budget, i);
      if k.retries[i].Opening? {
        forall id | Told(k', k.retries[i].call, id) ensures Told(k, k.retries[i].call, id) {}
      }
      hide Told;
      RetryStillFits(k, k', first, budget, i);
    }
  }

  lemma StageKeepsUnanswered(k: Conn, k': Conn, n: nat)
    requires StageMoves(k, k', n)
    ensures SameStreams(k, k') && SameKinds(k, k') && forall i: nat :: Unanswered(k, i) == Unanswered(k', i)
  {
  }

  lemma StageKeepsMessages(k: Conn, k': Conn, budget: nat, n: nat)
    requires MessagesFit(k, budget) && StageMoves(k, k', n) && k'.responses == k.responses
    requires forall m :: m in k'.requests ==> m in k.requests || RequestFits(k', budget, m)
    ensures MessagesFit(k', budget)
  {
    StageKeepsUnanswered(k, k', n);
    hide Fits, RequestFits, ResponseFits, StageMoves, Unanswered, SameKinds, SameStreams;
    forall m | m in k'.requests ensures RequestFits(k', budget, m) {
      if m in k.requests { RequestStillFits(k, k', budget, m); }
    }
    forall r | r in k'.responses ensures ResponseFits(k', budget, r) { ResponseStillFits(k, k', budget, r); }
  }

  lemma WriteGoesOn(k: Conn, first: nat, budget: nat, n: nat)
    requires UnderWay(k, first, budget) && n in k.calls && k.calls[n].stage.Registered?
    ensures UnderWay(Writes(k, n), first, budget)
  {
    hide WireId, Fits, OneCurrent, StreamKept, RetriesFit, MessagesFit;
    var k' := Writes(k, n);
    assert CallFits(k, first, budget, n);
    assert StageMoves(k, k', n) && CallFits(k', first, budget, n);
    assert RequestFits(k', budget, RequestMsg(WireId(n), k.calls[n].request, n));
    hide CallsFit, CallFits, StageMoves, RequestFits;
    StageKeepsFits(k, k', first, budget, n);
    StageKeepsMessages(k, k', budget, n);
  }

  lemma ReceiveGoesOn(k: Conn, first: nat, budget: nat, n: nat)
    requires UnderWay(k, first, budget) && n in k.calls && k.calls[n].stage.Waiting?
    requires |Sent(k.core, n)| == 1
    ensures UnderWay(SetStage(k, n, Returned(Sent(k.core, n)[0])), first, budget)
  {
    hide Fits, OneCurrent, StreamKept, RetriesFit, MessagesFit;
    var k' := SetStage(k, n, Returned(Sent(k.core, n)[0]));
    assert CallFits(k, first, budget, n);
    assert StageMoves(k, k', n) && CallFits(k', first, budget, n);
    hide CallsFit, CallFits, StageMoves;
    StageKeepsFits(k, k', first, budget, n);
    StageKeepsMessages(k, k', budget, n);
  }

  // ── The server ──

  /** Call n is current, and waits for no stream to be there: it was served, or its stream is being closed. */
  ghost predicate NeedsNoStream(k: Conn, n: nat) {
    Current(k, n) && !k.calls[n].stage.Registered? && (n in k.retries ==> k.retries[n].Closing?)
  }

  /** All streams of k are in k'. */
  predicate StreamsGrow(k: Conn, k': Conn) {
    forall id :: id in k.streams ==> id in k'.streams && k'.streams[id] == k.streams[id]
  }

  /** The server changes nothing but its streams. */
  ghost predicate SameClient(k: Conn, k': Conn) {
    k'.core == k.core && k'.calls == k.calls && k'.retries == k.retries && k'.readEnded == k.readEnded
  }

  lemma SameClientSameCurrent(k: Conn, k': Conn)
    requires SameClient(k, k') && OneCurrent(k)
    ensures SameCurrent(k, k') && OneCurrent(k')
  {
  }

  lemma ServedCallsFit(k: Conn, k': Conn, first: nat, budget: nat, h: nat)
    requires SameClient(k, k') && CallsFit(k, first, budget) && OneCurrent(k) && RecoveryOk(k)
    requires StreamsGrow(k, k') || NeedsNoStream(k, h)
    ensures CallsFit(k', first, budget)
  {
    forall n | n in k'.calls ensures CallFits(k', first, budget, n) {
      assert CallFits(k, first, budget, n);
      if n in k.retries { RetryOkAt(k, n); }
      if k.calls[n].stage.Registered? && k.calls[n].request.OnStream? { assert Current(k, n); }
    }
  }

  lemma ServedRetriesFit(k: Conn, k': Conn, first: nat, budget: nat, h: nat)
    requires SameClient(k, k') && RetriesFit(k, first, budget) && OneCurrent(k) && RecoveryOk(k)
    requires StreamsGrow(k, k') || NeedsNoStream(k, h)
    ensures RetriesFit(k', first, budget)
  {
    forall n | n in k'.retries ensures n in k'.calls && RetryFits(k', first, budget, n) {
      RetryFitsAt(k, first, budget, n);
      RetryOkAt(k, n);
      if Early(k.retries[n]) { assert Current(k, n); }
      hide RetryOk, OneCurrent, RecoveryOk, RetriesFit;
      forall c, id | Told(k', c, id) ensures Told(k, c, id) {}
    }
  }

  lemma FlightIsCurrent(k: Conn, n: nat)
    requires NetworkOk(k) && Unanswered(k, n) && InFlight(k, n)
    ensures n !in k.retries && (k.calls[n].request.OnStream? ==> Current(k, n))
  {
    hide WireId;
    if m :| m in k.requests && m.call == n { assert RequestOk(k, m); }
    if r :| r in k.responses && r.call == n { assert ResponseOk(k, r); }
  }

  /** A call of a recovery that still waits is that of the current call's goroutine. */
  lemma RecoveryCallIsCurrents(k: Conn, first: nat, budget: nat, n: nat)
    requires CallsFit(k, first, budget) && RecoveryOk(k) && Unanswered(k, n) && !k.calls[n].request.OnStream?
    ensures ServesARecovery(k, n) && Current(k, k.calls[n].origin.leader)
  {
    assert CallFits(k, first, budget, n);
    RetryOkAt(k, k.calls[n].origin.leader);
  }

  lemma ServedRequestFits(k: Conn, k': Conn, budget: nat, h: nat, m: RequestMsg)
    requires SameClient(k, k') && OneCurrent(k) && NetworkOk(k)
    requires m in k.requests && RequestFits(k, budget, m)
    requires StreamsGrow(k, k') || (NeedsNoStream(k, h) && m.call != h)
    ensures RequestFits(k', budget, m)
  {
    assert RequestOk(k, m);
    FlightIsCurrent(k, m.call);
    hide WireId, NetworkOk;
  }

  lemma ServedResponseFits(k: Conn, k': Conn, first: nat, budget: nat, h: nat, r: ResponseMsg)
    requires SameClient(k, k') && OneCurrent(k) && NetworkOk(k)
    requires CallsFit(k, first, budget) && RecoveryOk(k) && Ancestry(k)
    requires r in k.responses && ResponseFits(k, budget, r)
    requires StreamsGrow(k, k') || (NeedsNoStream(k, h) && r.call != h)
    ensures ResponseFits(k', budget, r)
  {
    FlightIsCurrent(k, r.call);
    assert OriginOk(k, r.call);
    if !k.calls[r.call].request.OnStream? { RecoveryCallIsCurrents(k, first, budget, r.call); }
    hide NetworkOk, CallsFit, RecoveryOk, Ancestry;
  }

  lemma NoOtherMessage(k: Conn, m: RequestMsg)
    requires NetworkOk(k) && m in k.requests
    ensures forall q :: q in k.requests - multiset{m} ==> q in k.requests && q.call != m.call
    ensures forall r :: r in k.responses ==> r.call != m.call
  {
    hide WireId;
    assert RequestOk(k, m);
    forall q | q in k.requests - multiset{m} ensures q in k.requests && q.call != m.call { assert RequestOk(k, q); }
  }

  lemma ServedMessagesFit(k: Conn, k': Conn, first: nat, budget: nat, h: nat, m: RequestMsg, answer: ResponseMsg)
    requires Inv(k) && UnderWay(k, first, budget) && SameClient(k, k') && m in k.requests
    requires k'.requests == k.requests - multiset{m} && k'.responses == k.responses + multiset{answer}
    requires StreamsGrow(k, k') || (NeedsNoStream(k, h) && (h == m.call || h in k.retries))
    requires ResponseFits(k', budget, answer)
    ensures MessagesFit(k', budget)
  {
    NoOtherMessage(k, m);
    hide Inv, UnderWay, SameClient, StreamsGrow, NeedsNoStream, RequestFits, ResponseFits, WireId;
    forall q | q in k'.requests ensures RequestFits(k', budget, q) {
      assert RequestOk(k, q);
      ServedRequestFits(k, k', budget, h, q);
    }
    forall r | r in k'.responses ensures ResponseFits(k', budget, r) {
      if r != answer {
        assert ResponseOk(k, r);
        ServedResponseFits(k, k', first, budget, h, r);
      }
    }
  }

  /** The server can do what it is asked: its pool yields a connection, ids can be drawn, and bodies succeed. */
  predicate Able(streams: Streams, env: Env) {
    env.connects && env.succeeds && FirstFree(env.draws, streams).Some?
  }

  /** Which call is current while m is served. */
  function HolderOf(k: Conn, m: RequestMsg): nat
    requires m.call in k.calls
  {
    match k.calls[m.call].origin
    case CloseFor(p) => p
    case OpenFor(p) => p
    case _ => m.call
  }

  /** What the server is asked for: the current call itself, or a step of the recovery its goroutine leads. */
  lemma WhatIsAsked(k: Conn, first: nat, budget: nat, m: RequestMsg)
    requires Inv(k) && UnderWay(k, first, budget) && m in k.requests
    ensures RequestFits(k, budget, m) && m.call in k.calls && m.request == k.calls[m.call].request
    ensures Current(k, HolderOf(k, m)) && !k.calls[HolderOf(k, m)].stage.Registered?
    ensures m.request.OnStream? ==> HolderOf(k, m) == m.call && m.call !in k.retries && !k.calls[m.call].origin.OpenFor?
    ensures !m.request.OnStream? ==> ServesARecovery(k, m.call) && k.calls[HolderOf(k, m)].retries + 1 <= budget
  {
    assert RequestOk(k, m) && RequestFits(k, budget, m) && OriginOk(k, m.call) && InFlight(k, m.call);
    assert NetworkOk(k) && RecoveryOk(k) && CallsFit(k, first, budget) && RetriesFit(k, first, budget);
    hide Inv, UnderWay, WireId, OneCurrent, StreamKept, MessagesFit, InFlight, Fits;
    FlightIsCurrent(k, m.call);
    if !m.request.OnStream? {
      RecoveryCallIsCurrents(k, first, budget, m.call);
      RetryFitsAt(k, first, budget, k.calls[m.call].origin.leader);
      RetryOkAt(k, k.calls[m.call].origin.leader);
    }
    hide NetworkOk, RecoveryOk, CallsFit, RetriesFit;
  }

  lemma AnswerFits(generation: nat, k: Conn, first: nat, budget: nat, m: RequestMsg, env: Env)
    requires Inv(k) && UnderWay(k, first, budget) && m in k.requests && m.call in k.calls && Able(k.streams, env)
    ensures var out := Handle(generation, k.streams, m.request, env);
      ResponseFits(Serves(generation, k, m, env), budget, ResponseMsg(m.id, out.response, m.call))
  {
    hide Inv, UnderWay, FirstFree;
    WhatIsAsked(k, first, budget, m);
    FirstFreeIsFree(env.draws, k.streams);
  }

  lemma ServedStreams(generation: nat, k: Conn, first: nat, budget: nat, m: RequestMsg, env: Env)
    requires Inv(k) && UnderWay(k, first, budget) && m in k.requests && m.call in k.calls && Able(k.streams, env)
    ensures var h := HolderOf(k, m);
      && Current(k, h)
      && (StreamsGrow(k, Serves(generation, k, m, env)) || (NeedsNoStream(k, h) && (h == m.call || h in k.retries)))
  {
    hide Inv, UnderWay, FirstFree;
    WhatIsAsked(k, first, budget, m);
    FirstFreeIsFree(env.draws, k.streams);
  }

  lemma ServeGoesOn(generation: nat, k: Conn, first: nat, budget: nat, m: RequestMsg, env: Env)
    requires Inv(k) && UnderWay(k, first, budget) && m in k.requests && m.call in k.calls && Able(k.streams, env)
    ensures UnderWay(Serves(generation, k, m, env), first, budget)
  {
    var k', h := Serves(generation, k, m, env), HolderOf(k, m);
    var answer := ResponseMsg(m.id, Handle(generation, k.streams, m.request, env).response, m.call);
    ServedStreams(generation, k, first, budget, m, env);
    AnswerFits(generation, k, first, budget, m, env);
    hide Handle, HolderOf, NeedsNoStream, StreamsGrow, ResponseFits, RequestFits, Current;
    ServedMessagesFit(k, k', first, budget, h, m, answer);
    ServedCallsFit(k, k', first, budget, h);
    ServedRetriesFit(k, k', first, budget, h);
    SameClientSameCurrent(k, k');
    hide Inv, CallsFit, RetriesFit, MessagesFit, OneCurrent;
    assert Current(k', h);
  }

  // ── The read loop ──

  /** What the answer m to its call leaves alone: everything but its channel, or its new goroutine. */
  ghost predicate Answers(k: Conn, k': Conn, m: ResponseMsg) {
    && k'.calls == k.calls && k'.streams == k.streams && k'.core.streamId == k.core.streamId
    && k'.core.closed == k.core.closed && k'.readEnded == k.readEnded
    && k'.requests == k.requests && k'.responses == k.responses - multiset{m}
    && (forall n: nat {:trigger Sent(k'.core, n)} :: n != m.call ==> Sent(k'.core, n) == Sent(k.core, n))
  }

  ghost predicate Settled(k: Conn, k': Conn, m: ResponseMsg) {
    && Answers(k, k', m) && m.response.Success? && k'.retries == k.retries
    && Sent(k'.core, m.call) == [Data(m.response.streamId)]
  }

  ghost predicate Superseded(k: Conn, k': Conn, m: ResponseMsg) {
    && Answers(k, k', m) && m.response.SupersededFailure? && k'.retries == k.retries[m.call := Started]
    && Sent(k'.core, m.call) == Sent(k.core, m.call) && m.call !in k.retries
  }

  lemma ItsWaiterIsThere(k: Conn, m: ResponseMsg)
    requires PendingOk(k) && NetworkOk(k) && IdsApart(k) && ChannelsOk(k) && m in k.responses && Unanswered(k, m.call)
    ensures m.id in k.core.pending && k.core.pending[m.id].chan == m.call && m.call !in k.retries
  {
    assert ResponseOk(k, m) && ChannelOk(k, m.call);
    hide WireId, NetworkOk, ChannelsOk, PendingOk;
    RestartsTakesItsCall(k, m);
  }

  lemma DeliveryAnswers(k: Conn, m: ResponseMsg)
    requires m in k.responses && Unanswered(k, m.call) && !m.response.Failure?
    requires m.id in k.core.pending && k.core.pending[m.id].chan == m.call && m.call !in k.retries
    ensures Settled(k, Delivers(k, m), m) || Superseded(k, Delivers(k, m), m)
  {
  }

  lemma OtherMessagesFit(k: Conn, k': Conn, budget: nat, m: ResponseMsg)
    requires NetworkOk(k) && MessagesFit(k, budget) && Answers(k, k', m) && m in k.responses
    ensures MessagesFit(k', budget)
  {
    assert ResponseOk(k, m);
    hide WireId, Fits, RequestFits, ResponseFits;
    assert SameKinds(k, k');
    forall q | q in k'.requests ensures RequestFits(k', budget, q) { RequestStillFits(k, k', budget, q); }
    forall r | r in k'.responses ensures ResponseFits(k', budget, r) {
      assert r != m && r in k.responses;
      ResponseStillFits(k, k', budget, r);
    }
  }

  lemma SettledCallsFit(k: Conn, k': Conn, first: nat, budget: nat, m: ResponseMsg)
    requires CallsFit(k, first, budget) && Settled(k, k', m) && NetworkOk(k) && m in k.responses
    ensures CallsFit(k', first, budget)
  {
    assert ResponseOk(k, m);
    hide WireId, NetworkOk, Fits;
    forall n | n in k'.calls ensures CallFits(k', first, budget, n) {
      assert CallFits(k, first, budget, n);
    }
  }

  lemma SettledRetriesFit(k: Conn, k': Conn, first: nat, budget: nat, m: ResponseMsg)
    requires RetriesFit(k, first, budget) && Settled(k, k', m) && RecoveryOk(k) && ResponseFits(k, budget, m)
    requires Unanswered(k, m.call)
    ensures RetriesFit(k', first, budget)
  {
    forall n | n in k'.retries ensures n in k'.calls && RetryFits(k', first, budget, n) {
      RetryFitsAt(k, first, budget, n);
      RetryOkAt(k, n);
      hide RetriesFit, RecoveryOk, Fits;
      forall c, id | Told(k', c, id) ensures Told(k, c, id) || (c == m.call && id == m.response.streamId) {}
    }
  }

  lemma SettledCurrent(k: Conn, k': Conn, budget: nat, m: ResponseMsg)
    requires OneCurrent(k) && StreamKept(k) && Settled(k, k', m) && ResponseFits(k, budget, m)
    ensures OneCurrent(k') && StreamKept(k')
  {
    forall n: nat ensures Current(k', n) ==> Current(k, n) {}
    if n: nat :| Current(k, n) {
      if n != m.call { assert Current(k', n); } else { assert k.calls[n].request.OnStream?; }
    }
  }

  lemma SupersededCallsFit(k: Conn, k': Conn, first: nat, budget: nat, m: ResponseMsg)
    requires CallsFit(k, first, budget) && Superseded(k, k', m)
    ensures CallsFit(k', first, budget)
  {
    forall n | n in k'.calls ensures CallFits(k', first, budget, n) {
      assert CallFits(k, first, budget, n);
      CallStillFits(k, k', first, budget, n);
    }
  }

  lemma SupersededRetriesFit(k: Conn, k': Conn, first: nat, budget: nat, m: ResponseMsg)
    requires CallsFit(k, first, budget) && RetriesFit(k, first, budget)
    requires Superseded(k, k', m) && ResponseFits(k, budget, m)
    ensures RetriesFit(k', first, budget)
  {
    assert CallFits(k, first, budget, m.call);
    hide Fits;
    forall n | n in k'.retries ensures n in k'.calls && RetryFits(k', first, budget, n) {
      if n != m.call {
        RetryFitsAt(k, first, budget, n);
        forall c, id | Told(k', c, id) ensures Told(k, c, id) {}
        RetryStillFits(k, k', first, budget, n);
      }
    }
  }

  lemma SupersededCurrent(k: Conn, k': Conn, budget: nat, m: ResponseMsg)
    requires OneCurrent(k) && StreamKept(k) && Superseded(k, k', m) && ResponseFits(k, budget, m)
    ensures OneCurrent(k') && StreamKept(k')
  {
    assert SameCurrent(k, k') by { hide OneCurrent, StreamKept; }
    CurrentStays(k, k');
  }

  lemma DeliverGoesOn(k: Conn, first: nat, budget: nat, m: ResponseMsg)
    requires Inv(k) && UnderWay(k, first, budget) && m in k.responses
    ensures UnderWay(Delivers(k, m), first, budget)
  {
    assert ResponseFits(k, budget, m) && Unanswered(k, m.call) && !m.response.Failure?;
    assert PendingOk(k) && NetworkOk(k) && IdsApart(k) && ChannelsOk(k) && RecoveryOk(k);
    hide Inv, PendingOk, NetworkOk, IdsApart, ChannelsOk, RecoveryOk, Unanswered, ResponseFits;
    hide CallsFit, RetriesFit, MessagesFit, OneCurrent, StreamKept;
    var k' := Delivers(k, m);
    ItsWaiterIsThere(k, m);
    DeliveryAnswers(k, m);
    hide Delivers;
    OtherMessagesFit(k, k', budget, m);
    if Settled(k, k', m) {
      SettledCallsFit(k, k', first, budget, m);
      SettledRetriesFit(k, k', first, budget, m);
      SettledCurrent(k, k', budget, m);
    } else {
      SupersededCallsFit(k, k', first, budget, m);
      SupersededRetriesFit(k, k', first, budget, m);
      SupersededCurrent(k, k', budget, m);
    }
  }

  // ── The goroutine ──

  /** The goroutine of n moves on; a call may have been started, nobody's channel is touched. */
  ghost predicate RetryMoves(k: Conn, k': Conn, n: nat, r: Retry) {
    && k'.retries == k.retries[n := r] && n in k.retries && n in k.calls
    && SameStreams(k, k') && !k'.core.closed && k'.readEnded == k.readEnded
    && k'.requests == k.requests && k'.responses == k.responses
    && (forall i :: i in k.calls ==> SameCall(k, k', i))
  }

  lemma MoveKeepsMessagesFit(k: Conn, k': Conn, budget: nat, n: nat, r: Retry)
    requires RetryMoves(k, k', n, r) && MessagesFit(k, budget)
    ensures MessagesFit(k', budget)
  {
    assert SameKinds(k, k') && forall i: nat :: Unanswered(k, i) ==> Unanswered(k', i);
    hide Fits, RequestFits, ResponseFits, Unanswered;
    forall q | q in k'.requests ensures RequestFits(k', budget, q) { RequestStillFits(k, k', budget, q); }
    forall q | q in k'.responses ensures ResponseFits(k', budget, q) { ResponseStillFits(k, k', budget, q); }
  }

  lemma MoveKeepsCallsFit(k: Conn, k': Conn, first: nat, budget: nat, n: nat, r: Retry)
    requires RetryMoves(k, k', n, r) && CallsFit(k, first, budget)
    requires forall c :: c in k.calls && (k.retries[n] == Closing(c) || k.retries[n] == Opening(c)) ==>
               k.calls[c].stage.Returned?
    requires forall c :: c in k'.calls && c !in k.calls ==> CallFits(k', first, budget, c)
    ensures CallsFit(k', first, budget)
  {
    hide Fits;
    forall i | i in k'.calls ensures CallFits(k', first, budget, i) {
      if i in k.calls {
        assert CallFits(k, first, budget, i) && SameCall(k, k', i);
      }
    }
  }

  lemma MoveKeepsRetriesFit(k: Conn, k': Conn, first: nat, budget: nat, n: nat, r: Retry)
    requires RetryMoves(k, k', n, r) && RetriesFit(k, first, budget) && RecoveryOk(k) && n in k'.calls
    requires RetryFits(k', first, budget, n)
    ensures RetriesFit(k', first, budget)
  {
    hide Fits;
    forall i | i in k'.retries ensures i in k'.calls && RetryFits(k', first, budget, i) {
      if i != n {
        RetryFitsAt(k, first, budget, i);
        RetryOkAt(k, i);
        assert SameCall(k, k', i);
        if k.retries[i].Opening? {
          assert SameCall(k, k', k.retries[i].call);
          forall id | Told(k', k.retries[i].call, id) ensures Told(k, k.retries[i].call, id) {}
        }
        hide RetriesFit, RecoveryOk, Told;
        RetryStillFits(k, k', first, budget, i);
      }
    }
  }

  /** The goroutine of the current call keeps it current. */
  lemma MoveKeepsCurrent(k: Conn, k': Conn, n: nat, r: Retry)
    requires RetryMoves(k, k', n, r) && OneCurrent(k) && StreamKept(k) && Early(k.retries[n]) == Early(r)
    requires forall c :: c in k'.calls && c !in k.calls ==> !k'.calls[c].request.OnStream? && c !in k.retries
    ensures OneCurrent(k') && StreamKept(k')
  {
    assert SameCurrent(k, k') by {
      hide OneCurrent, StreamKept;
      forall i: nat ensures Current(k', i) == Current(k, i) { if i in k.calls { assert SameCall(k, k', i); } }
    }
    CurrentStays(k, k');
  }

  /** A step of the goroutine of the current call that repeats nothing yet. */
  lemma EarlyMoveGoesOn(k: Conn, k': Conn, first: nat, budget: nat, n: nat, r: Retry)
    requires UnderWay(k, first, budget) && RecoveryOk(k) && RetryMoves(k, k', n, r)
    requires Early(k.retries[n]) == Early(r) && n in k'.calls && RetryFits(k', first, budget, n)
    requires forall c :: c in k.calls && (k.retries[n] == Closing(c) || k.retries[n] == Opening(c)) ==>
               k.calls[c].stage.Returned?
    requires forall c :: c in k'.calls && c !in k.calls ==>
               CallFits(k', first, budget, c) && !k'.calls[c].request.OnStream? && c !in k.retries
    ensures UnderWay(k', first, budget)
  {
    hide CallFits, RetryFits, OneCurrent, StreamKept, CallsFit, RetriesFit, MessagesFit, RecoveryOk;
    MoveKeepsMessagesFit(k, k', budget, n, r);
    MoveKeepsCallsFit(k, k', first, budget, n, r);
    MoveKeepsRetriesFit(k, k', first, budget, n, r);
    MoveKeepsCurrent(k, k', n, r);
  }

  /** Whoever leads a recovery does so for the current call. */
  lemma LeaderIsCurrent(k: Conn, first: nat, budget: nat, n: nat)
    requires OneCurrent(k) && RetriesFit(k, first, budget) && RecoveryOk(k) && Current(k, n)
    ensures k.core.recovering.Some? ==> k.core.recovering.value == n
  {
    if k.core.recovering.Some? {
      var l := k.core.recovering.value;
      RetryFitsAt(k, first, budget, l);
      RetryOkAt(k, l);
      assert Current(k, l);
    }
  }

  lemma StartedGoesOn(k: Conn, first: nat, budget: nat, n: nat)
    requires UnderWay(k, first, budget) && RecoveryOk(k) && n in k.retries && n in k.calls && k.retries[n].Started?
    requires budget <= MAX_STREAM_RETRIES
    ensures UnderWay(Advances(k, n), first, budget)
  {
    RetryFitsAt(k, first, budget, n);
    RetryOkAt(k, n);
    LeaderIsCurrent(k, first, budget, n);
    assert RetryMoves(k, Advances(k, n), n, Leading);
    assert RetryFits(Advances(k, n), first, budget, n);
    hide UnderWay, RecoveryOk, RetryMoves, RetryFits;
    EarlyMoveGoesOn(k, Advances(k, n), first, budget, n, Leading);
  }

  lemma BeginMoves(k: Conn, n: nat, root: nat, retries: nat, request: Request, origin: Origin, r: Retry)
    requires Shape(k) && n in k.retries && !k.core.closed
    ensures var k', c := SetRetry(Begin(k, root, retries, request, origin), n, r), k.sent + 1;
      && RetryMoves(k, k', n, r) && c !in k.calls && c in k'.calls && Sent(k'.core, c) == []
      && k'.calls == k.calls[c := Call(root, retries, request, origin, Registered)]
  {
    hide WireId, NextId;
  }

  /** The recovery step that a goroutine takes next with a call of its own. */
  predicate AsksNext(k: Conn, n: nat, request: Request, origin: Origin, r: Retry)
    requires n in k.retries
  {
    if k.retries[n].Leading? then request.CloseStream? && origin == CloseFor(n) && r == Closing(k.sent + 1)
    else
      && k.retries[n].Closing? && k.retries[n].call in k.calls && k.calls[k.retries[n].call].stage.Returned?
      && request.OpenStreamAssigned? && origin == OpenFor(n) && r == Opening(k.sent + 1)
  }

  lemma RecoveryCallFits(k': Conn, first: nat, budget: nat, n: nat, c: nat)
    requires c in k'.calls && first <= c && k'.calls[c].stage.Registered? && Sent(k'.core, c) == []
    requires !k'.calls[c].request.OnStream? && ServesARecovery(k', c)
    ensures CallFits(k', first, budget, c)
  {
  }

  lemma RecoveryStepFits(k: Conn, k': Conn, first: nat, budget: nat, n: nat, c: nat)
    requires n in k.retries && n in k.calls && Early(k.retries[n]) && RetryFits(k, first, budget, n)
    requires n in k'.retries && n in k'.calls && k'.calls[n].retries == k.calls[n].retries
    requires k'.retries[n] == Closing(c) || k'.retries[n] == Opening(c)
    requires c in k'.calls && k'.calls[c].stage.Registered? && Sent(k'.core, c) == []
    ensures RetryFits(k', first, budget, n)
  {
  }

  lemma RecoveryStepGoesOn(k: Conn, k': Conn, first: nat, budget: nat, n: nat, c: nat)
    requires UnderWay(k, first, budget) && RecoveryOk(k) && n in k'.retries && RetryMoves(k, k', n, k'.retries[n])
    requires c !in k.calls && c !in k.retries && first <= c && c in k'.calls && k'.calls == k.calls[c := k'.calls[c]]
    requires k'.calls[c].stage.Registered? && Sent(k'.core, c) == []
    requires !k'.calls[c].request.OnStream? && ServesARecovery(k', c)
    requires k'.retries[n] == Closing(c) || k'.retries[n] == Opening(c)
    requires k.retries[n].Leading?
          || (k.retries[n].Closing? && k.retries[n].call in k.calls && k.calls[k.retries[n].call].stage.Returned?)
    ensures UnderWay(k', first, budget)
  {
    RetryFitsAt(k, first, budget, n);
    hide UnderWay, RecoveryOk, RetryFits, CallFits, ServesARecovery;
    RecoveryCallFits(k', first, budget, n, c);
    RecoveryStepFits(k, k', first, budget, n, c);
    EarlyMoveGoesOn(k, k', first, budget, n, k'.retries[n]);
  }

  lemma GoroutineIsOfTheRequest(k: Conn, first: nat, budget: nat, n: nat)
    requires UnderWay(k, first, budget) && Shape(k) && n in k.retries && Early(k.retries[n])
    ensures !k.core.closed && first <= n <= k.sent && k.sent + 1 !in k.retries
  {
    RetryFitsAt(k, first, budget, n);
    hide UnderWay, WireId;
  }

  /** The goroutine of the current call n asks for a recovery step with a call of its own. */
  lemma RecoveryCallGoesOn(k: Conn, first: nat, budget: nat, n: nat, request: Request, origin: Origin, r: Retry)
    requires UnderWay(k, first, budget) && Shape(k) && RecoveryOk(k) && n in k.retries && n in k.calls
    requires AsksNext(k, n, request, origin, r)
    ensures UnderWay(SetRetry(Begin(k, k.sent + 1, 0, request, origin), n, r), first, budget)
  {
    hide UnderWay, RecoveryOk, Shape, RetryMoves, Begin, Sent;
    GoroutineIsOfTheRequest(k, first, budget, n);
    BeginMoves(k, n, k.sent + 1, 0, request, origin, r);
    RecoveryStepGoesOn(k, SetRetry(Begin(k, k.sent + 1, 0, request, origin), n, r), first, budget, n, k.sent + 1);
  }

  /** While the goroutine of the current call is at work, no other call or goroutine needs the client's stream. */
  lemma NobodyElse(k: Conn, first: nat, budget: nat, n: nat)
    requires CallsFit(k, first, budget) && OneCurrent(k) && RecoveryOk(k) && Current(k, n) && n in k.retries
    ensures forall i :: i in k.calls && k.calls[i].stage.Registered? ==> !k.calls[i].request.OnStream?
    ensures forall i :: i in k.retries && i != n ==> !Early(k.retries[i])
  {
    forall i | i in k.calls && k.calls[i].stage.Registered? ensures !k.calls[i].request.OnStream? {
      assert CallFits(k, first, budget, i);
      if i in k.retries { RetryOkAt(k, i); }
      if k.calls[i].request.OnStream? { assert Current(k, i); }
    }
    forall i | i in k.retries && Early(k.retries[i]) ensures i == n {
      RetryOkAt(k, i);
      assert Current(k, i);
    }
  }

  lemma NobodyElseInFlight(k: Conn, n: nat)
    requires OneCurrent(k) && NetworkOk(k) && Current(k, n) && n in k.retries
    ensures forall i :: Unanswered(k, i) && InFlight(k, i) ==> !k.calls[i].request.OnStream?
  {
    forall i | Unanswered(k, i) && InFlight(k, i) ensures !k.calls[i].request.OnStream? { FlightIsCurrent(k, i); }
  }

  /** The recovery is over: the stream it opened is the client's stream from now on. */
  function Recovered(k: Conn, n: nat, id: int32): Conn {
    SetRetry(k.(core := EndRecovery(k.core, Some(id))), n, Ready)
  }

  lemma RecoveredCallsFit(k: Conn, first: nat, budget: nat, n: nat, id: int32)
    requires CallsFit(k, first, budget) && OneCurrent(k) && RecoveryOk(k) && Current(k, n) && n in k.retries
    requires k.retries[n].Opening? && k.retries[n].call in k.calls && k.calls[k.retries[n].call].stage.Returned?
    ensures CallsFit(Recovered(k, n, id), first, budget)
  {
    NobodyElse(k, first, budget, n);
    hide RecoveryOk, OneCurrent, Fits;
    var k' := Recovered(k, n, id);
    forall i | i in k'.calls ensures CallFits(k', first, budget, i) {
      assert CallFits(k, first, budget, i);
      assert Unanswered(k, i) ==> k.calls[i].request.OnStream?;
      assert Sent(k'.core, i) == Sent(k.core, i);
    }
  }

  lemma RecoveredRetriesFit(k: Conn, first: nat, budget: nat, n: nat, id: int32)
    requires CallsFit(k, first, budget) && RetriesFit(k, first, budget) && OneCurrent(k) && RecoveryOk(k)
    requires Current(k, n) && n in k.retries && k.retries[n].Opening? && Told(k, k.retries[n].call, id)
    ensures RetriesFit(Recovered(k, n, id), first, budget)
  {
    NobodyElse(k, first, budget, n);
    hide RecoveryOk, OneCurrent, CallsFit, Fits;
    var k' := Recovered(k, n, id);
    forall i | i in k'.retries ensures i in k'.calls && RetryFits(k', first, budget, i) {
      RetryFitsAt(k, first, budget, i);
    }
  }

  lemma RecoveredMessagesFit(k: Conn, budget: nat, n: nat, id: int32)
    requires MessagesFit(k, budget) && OneCurrent(k) && NetworkOk(k) && Current(k, n) && n in k.retries
    ensures MessagesFit(Recovered(k, n, id), budget)
  {
    NobodyElseInFlight(k, n);
    var k' := Recovered(k, n, id);
    forall m | m in k'.requests ensures RequestFits(k', budget, m) {
      assert InFlight(k, m.call) && RequestFits(k, budget, m) && RequestOk(k, m);
      hide OneCurrent, NetworkOk, MessagesFit, Fits, InFlight, WireId, Current;
    }
    forall r | r in k'.responses ensures ResponseFits(k', budget, r) {
      assert InFlight(k, r.call) && ResponseFits(k, budget, r);
      hide OneCurrent, NetworkOk, MessagesFit, Fits, InFlight, WireId, Current;
    }
  }

  lemma RecoveredGoesOn(k: Conn, first: nat, budget: nat, n: nat)
    requires Inv(k) && UnderWay(k, first, budget) && n in k.retries && n in k.calls && k.retries[n].Opening?
    ensures UnderWay(Advances(k, n), first, budget)
  {
    var c := k.retries[n].call;
    if c in k.calls && k.calls[c].stage.Returned? {
      RetryFitsAt(k, first, budget, n);
      RetryOkAt(k, n);
      assert CallFits(k, first, budget, c);
      assert NetworkOk(k) && RecoveryOk(k) && Current(k, n);
      var id := k.calls[c].stage.result.streamId;
      assert Told(k, c, id);
      hide Inv, NetworkOk, RecoveryOk, RetryFits, CallFits, Told;
      RecoveredCallsFit(k, first, budget, n, id);
      RecoveredRetriesFit(k, first, budget, n, id);
      RecoveredMessagesFit(k, budget, n, id);
      hide CallsFit, RetriesFit, MessagesFit;
      assert SameCurrent(k, Recovered(k, n, id)) by { hide OneCurrent, StreamKept; }
      assert Current(Recovered(k, n, id), n);
    }
  }

  // ── The next attempt ──

  function Repeated(k: Conn, n: nat): Conn
    requires n in k.calls
  {
    var next := Begin(k, k.calls[n].root, k.calls[n].retries + 1, OnStream(k.core.streamId), RetryOf(n));
    SetRetry(next, n, Resent(k.sent + 1))
  }

  lemma RepeatFits(k: Conn, first: nat, budget: nat, n: nat)
    requires Shape(k) && n in k.retries && n in k.calls && k.retries[n].Ready? && !k.core.closed
    requires RetryFits(k, first, budget, n) && RetryOk(k, n)
    ensures var k', c := Repeated(k, n), k.sent + 1;
      && RetryMoves(k, k', n, Resent(c)) && c !in k.calls && c !in k.retries
      && Sent(k'.core, c) == [] && CallFits(k', first, budget, c) && RetryFits(k', first, budget, n)
      && Advances(k, n) == k'
      && var next := Call(k.calls[n].root, k.calls[n].retries + 1, OnStream(k.core.streamId), RetryOf(n), Registered);
         k'.calls == k.calls[c := next]
  {
    BeginMoves(k, n, k.calls[n].root, k.calls[n].retries + 1, OnStream(k.core.streamId), RetryOf(n), Resent(k.sent + 1));
    assert first <= n <= k.sent && k.sent + 1 !in k.retries;
    hide Begin, Shape;
  }

  lemma RepeatGoesOn(k: Conn, first: nat, budget: nat, n: nat)
    requires Inv(k) && UnderWay(k, first, budget) && n in k.retries && n in k.calls && k.retries[n].Ready?
    ensures UnderWay(Advances(k, n), first, budget)
  {
    RetryFitsAt(k, first, budget, n);
    RetryOkAt(k, n);
    var k', c := Repeated(k, n), k.sent + 1;
    assert Shape(k) && RecoveryOk(k);
    hide Inv, RecoveryOk, Shape, OneCurrent, StreamKept, CallsFit, RetriesFit, MessagesFit;
    RepeatFits(k, first, budget, n);
    assert Current(k, n);
    hide RetryFits, CallFits, RetryOk, Advances, Repeated;
    RepeatIsCurrent(k, k', n, c);
    assert !k'.core.closed && !k'.readEnded;
    hide Current, RetryMoves;
    MoveKeepsMessagesFit(k, k', budget, n, Resent(c));
    MoveKeepsCallsFit(k, k', first, budget, n, Resent(c));
    MoveKeepsRetriesFit(k, k', first, budget, n, Resent(c));
  }

  lemma RepeatIsCurrent(k: Conn, k': Conn, n: nat, c: nat)
    requires RetryMoves(k, k', n, Resent(c)) && OneCurrent(k) && Current(k, n) && c !in k.calls && c in k'.calls
    requires c !in k.retries && k'.calls.Keys == k.calls.Keys + {c}
    requires k'.calls[c].request.OnStream? && !k'.calls[c].stage.Returned? && Sent(k'.core, c) == []
    ensures OneCurrent(k') && StreamKept(k')
  {
    assert Current(k', c) && n != c;
    forall i: nat | Current(k', i) ensures i == c {
      if i != c { assert SameCall(k, k', i) && Current(k, i); }
    }
  }

  // ── The answer goes up ──

  lemma AnswerGoesOn(k: Conn, first: nat, budget: nat, n: nat, result: Result)
    requires Inv(k) && UnderWay(k, first, budget) && n in k.retries
    requires n in k.calls && k.retries[n].Resent? && result.Data?
    ensures UnderWay(Answer(k, n, result, true), first, budget)
  {
    RetryFitsAt(k, first, budget, n);
    RetryOkAt(k, n);
    assert ChannelOk(k, n) && Ancestry(k) && NetworkOk(k) && RecoveryOk(k);
    var k' := Answer(k, n, result, true);
    hide Inv, WireId;
    assert SameCurrent(k, k') by { hide OneCurrent, StreamKept, CallsFit, RetriesFit, MessagesFit; }
    CurrentStays(k, k');
    AnsweredCallsFit(k, first, budget, n, result);
    AnsweredRetriesFit(k, first, budget, n, result);
    AnsweredMessagesFit(k, budget, n, result);
  }

  lemma AnsweredCallsFit(k: Conn, first: nat, budget: nat, n: nat, result: Result)
    requires CallsFit(k, first, budget) && n in k.retries && n in k.calls && k.retries[n].Resent? && result.Data?
    requires RetryOk(k, n) && Sent(k.core, n) == [] && first <= n
    ensures CallsFit(Answer(k, n, result, true), first, budget)
  {
    var k' := Answer(k, n, result, true);
    forall i | i in k'.calls ensures CallFits(k', first, budget, i) {
      assert CallFits(k, first, budget, i);
      assert i != n ==> Sent(k'.core, i) == Sent(k.core, i);
      assert Sent(k'.core, n) == [result];
      assert Unanswered(k', i) && !k.calls[i].request.OnStream? ==> ServesARecovery(k', i);
    }
  }

  lemma AnsweredRetriesFit(k: Conn, first: nat, budget: nat, n: nat, result: Result)
    requires RetriesFit(k, first, budget) && RecoveryOk(k) && Ancestry(k) && n in k.retries && n in k.calls
    ensures RetriesFit(Answer(k, n, result, true), first, budget)
  {
    var k' := Answer(k, n, result, true);
    RetryOkAt(k, n);
    forall i | i in k'.retries ensures i in k'.calls && RetryFits(k', first, budget, i) {
      RetryFitsAt(k, first, budget, i);
      RetryOkAt(k, i);
      if k.retries[i].Opening? {
        assert OriginOk(k, k.retries[i].call);
        forall id | Told(k', k.retries[i].call, id) ensures Told(k, k.retries[i].call, id) {}
      }
    }
  }

  lemma AnsweredMessagesFit(k: Conn, budget: nat, n: nat, result: Result)
    requires MessagesFit(k, budget) && NetworkOk(k) && n in k.retries && n in k.calls
    ensures MessagesFit(Answer(k, n, result, true), budget)
  {
    hide WireId, Fits;
    var k' := Answer(k, n, result, true);
    forall m | m in k'.requests ensures RequestFits(k', budget, m) {
      assert RequestFits(k, budget, m) && RequestOk(k, m);
    }
    forall r | r in k'.responses ensures ResponseFits(k', budget, r) {
      assert ResponseFits(k, budget, r) && ResponseOk(k, r);
    }
  }

  lemma LeadingGoesOn(k: Conn, first: nat, budget: nat, n: nat)
    requires UnderWay(k, first, budget) && Shape(k) && RecoveryOk(k)
    requires n in k.retries && n in k.calls && k.retries[n].Leading?
    ensures UnderWay(Advances(k, n), first, budget)
  {
    hide UnderWay, Shape, RecoveryOk, Begin;
    RecoveryCallGoesOn(k, first, budget, n, CloseStream(k.core.streamId), CloseFor(n), Closing(k.sent + 1));
  }

  lemma ClosingGoesOn(k: Conn, first: nat, budget: nat, n: nat)
    requires UnderWay(k, first, budget) && Shape(k) && RecoveryOk(k)
    requires n in k.retries && n in k.calls && k.retries[n].Closing?
    ensures UnderWay(Advances(k, n), first, budget)
  {
    hide UnderWay, Shape, RecoveryOk, Begin;
    var c := k.retries[n].call;
    if c in k.calls && k.calls[c].stage.Returned? {
      RecoveryCallGoesOn(k, first, budget, n, OpenStreamAssigned, OpenFor(n), Opening(k.sent + 1));
    }
  }

  lemma ResentGoesOn(k: Conn, first: nat, budget: nat, n: nat)
    requires Inv(k) && UnderWay(k, first, budget) && n in k.retries && n in k.calls && k.retries[n].Resent?
    ensures UnderWay(Advances(k, n), first, budget)
  {
    RetryFitsAt(k, first, budget, n);
    RetryOkAt(k, n);
    var c := k.retries[n].call;
    assert CallFits(k, first, budget, c);
    hide Inv, UnderWay, RetryOk, Answer;
    if c in k.calls && k.calls[c].stage.Returned? {
      AnswerGoesOn(k, first, budget, n, k.calls[c].stage.result);
    }
  }

  lemma AdvanceGoesOn(k: Conn, first: nat, budget: nat, n: nat)
    requires Inv(k) && UnderWay(k, first, budget) && n in k.retries && n in k.calls && budget <= MAX_STREAM_RETRIES
    ensures UnderWay(Advances(k, n), first, budget)
  {
    RetryFitsAt(k, first, budget, n);
    assert RecoveryOk(k) && Shape(k);
    assert k.retries[n].Answered? ==> Advances(k, n) == k by { hide Inv, UnderWay, Begin; }
    hide Inv, RecoveryOk, Shape, UnderWay, Advances;
    match k.retries[n] {
      case Started => StartedGoesOn(k, first, budget, n);
      case Leading => LeadingGoesOn(k, first, budget, n);
      case Closing(_) => ClosingGoesOn(k, first, budget, n);
      case Opening(_) => RecoveredGoesOn(k, first, budget, n);
      case Ready => RepeatGoesOn(k, first, budget, n);
      case Resent(_) => ResentGoesOn(k, first, budget, n);
      case _ =>
    }
  }

  // ── Swaps ──

  /** A swap costs every use of a stream one retry at most. */
  lemma SwapFits(streams: Streams, id: int32, attempt: nat, budget: nat, generation: nat)
    ensures Fits(streams, id, attempt, budget) ==> Fits(Supersede(streams, generation), id, attempt, budget + 1)
  {
  }

  lemma SwapGoesOn(k: Conn, first: nat, budget: nat, generation: nat)
    requires UnderWay(k, first, budget)
    ensures UnderWay(k.(streams := Supersede(k.streams, generation)), first, budget + 1)
  {
    var k' := k.(streams := Supersede(k.streams, generation));
    forall id, attempt | Fits(k.streams, id, attempt, budget) ensures Fits(k'.streams, id, attempt, budget + 1) {
      SwapFits(k.streams, id, attempt, budget, generation);
    }
    assert k.core.streamId in k.streams ==> k.core.streamId in k'.streams;
    hide Supersede, Fits;
    assert SameCurrent(k, k') by { hide UnderWay; }
    SwappedCurrent(k, k');
    SwappedMessages(k, k', budget);
    forall i | i in k'.calls ensures CallFits(k', first, budget + 1, i) { assert CallFits(k, first, budget, i); }
    forall i | i in k'.retries ensures i in k'.calls && RetryFits(k', first, budget + 1, i) {
      RetryFitsAt(k, first, budget, i);
      forall c, id | Told(k', c, id) ensures Told(k, c, id) {}
    }
  }

  ghost predicate FitsGrow(k: Conn, k': Conn, budget: nat) {
    && SameClient(k, k') && (k.core.streamId in k.streams ==> k.core.streamId in k'.streams)
    && forall id, attempt :: Fits(k.streams, id, attempt, budget) ==> Fits(k'.streams, id, attempt, budget + 1)
  }

  lemma SwappedCurrent(k: Conn, k': Conn)
    requires OneCurrent(k) && StreamKept(k) && SameCurrent(k, k') && k'.core == k.core
    requires k.core.streamId in k.streams ==> k.core.streamId in k'.streams
    ensures OneCurrent(k') && StreamKept(k')
  {
    hide Current;
    if n: nat :| Current(k, n) { assert Current(k', n); }
  }

  lemma SwappedMessages(k: Conn, k': Conn, budget: nat)
    requires FitsGrow(k, k', budget) && MessagesFit(k, budget) && k'.requests == k.requests && k'.responses == k.responses
    ensures MessagesFit(k', budget + 1)
  {
    hide Fits;
    forall m | m in k'.requests ensures RequestFits(k', budget + 1, m) { assert RequestFits(k, budget, m); }
    forall r | r in k'.responses ensures ResponseFits(k', budget + 1, r) { assert ResponseFits(k, budget, r); }
  }
}
