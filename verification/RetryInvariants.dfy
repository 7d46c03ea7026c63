/**
 What every step of the retry protocol keeps, as long as no step takes a request id
 that is still in use: ids are 32 bits wide and come round again.
 */
module RetryInvariants {
  import opened NativeTypes
  import opened WsStreams
  import opened RetryClient
  import opened RetryProtocol

  /** Calls are numbered 1 to `sent`, own one channel each, and the counter shows the last wire id. */
  ghost predicate Shape(k: Conn) {
    && (forall n: nat :: n in k.calls <==> 1 <= n <= k.sent)
    && k.core.chans.Keys == k.calls.Keys
    && k.core.seqNo == WireId(k.sent)
    && k.retries.Keys <= k.calls.Keys
  }

  ghost predicate OriginOk(k: Conn, n: nat)
    requires n in k.calls
  {
    var c := k.calls[n];
    && c.retries <= MAX_STREAM_RETRIES
    && c.root in k.calls && c.root <= n
    && (c.request.OnStream? ==> k.calls[c.root].request.OnStream?)
    && match c.origin
       case User => c.root == n && c.retries == 0
       case RetryOf(p) => p in k.calls && p < n && c.root == k.calls[p].root && c.request.OnStream?
       case CloseFor(_) => c.root == n && c.retries == 0 && !c.request.OnStream?
       case OpenFor(_) => c.root == n && c.retries == 0 && !c.request.OnStream?
  }

  /** Every call hangs on the application's call it repeats; the calls of a recovery repeat nothing. */
  ghost predicate Ancestry(k: Conn) {
    forall n {:trigger OriginOk(k, n)} :: n in k.calls ==> OriginOk(k, n)
  }

  ghost predicate Pending(k: Conn, n: nat) {
    WireId(n) in k.core.pending && k.core.pending[WireId(n)].chan == n
  }

  /** A waiter is the entry of a call that has not returned, holds that call's request, and owns an empty channel. */
  ghost predicate PendingOk(k: Conn) {
    forall id :: id in k.core.pending ==>
      var w := k.core.pending[id];
      && w.chan in k.calls && id == WireId(w.chan)
      && w.request == k.calls[w.chan].request && w.retries == k.calls[w.chan].retries
      && !k.calls[w.chan].stage.Returned?
      && Sent(k.core, w.chan) == [] && w.chan !in k.retries
  }

  ghost predicate ChannelOk(k: Conn, n: nat)
    requires n in k.calls
  {
    && |Sent(k.core, n)| <= 1
    && (n in k.retries ==> |Sent(k.core, n)| == if k.retries[n].Answered? then 1 else 0)
    && (!k.calls[n].stage.Returned? ==> Pending(k, n) || n in k.retries || |Sent(k.core, n)| == 1)
  }

  /** At most one value is ever sent on a channel, and nobody who waits is forgotten. */
  ghost predicate ChannelsOk(k: Conn) {
    forall n {:trigger ChannelOk(k, n)} :: n in k.calls ==> ChannelOk(k, n)
  }

  /** A call has a message about it in flight only once it was written, and none while it is being retried. */
  ghost predicate InFlightOk(k: Conn, id: int32, call: nat) {
    && call in k.calls && id == WireId(call)
    && !k.calls[call].stage.Registered? && call !in k.retries
  }

  ghost predicate RequestOk(k: Conn, m: RequestMsg) {
    k.requests[m] == 1 && InFlightOk(k, m.id, m.call) && m.request == k.calls[m.call].request
  }

  ghost predicate ResponseOk(k: Conn, r: ResponseMsg) {
    && k.responses[r] == 1 && InFlightOk(k, r.id, r.call)
    && (r.response.SupersededFailure? ==> k.calls[r.call].request.OnStream?)
  }

  /** No call has two messages about it in flight. */
  ghost predicate OneMessageEach(requests: multiset<RequestMsg>, responses: multiset<ResponseMsg>) {
    && (forall m, r :: m in requests && r in responses ==> m.call != r.call)
    && (forall r, r' :: r in responses && r' in responses && r.call == r'.call ==> r == r')
  }

  /** There is at most one message about a call in flight, and it tells the call's own request. */
  ghost predicate NetworkOk(k: Conn) {
    && (forall m :: m in k.requests ==> RequestOk(k, m))
    && (forall r :: r in k.responses ==> ResponseOk(k, r))
    && OneMessageEach(k.requests, k.responses)
  }

  predicate WasResent(r: Retry) {
    r.Resent? || (r.Answered? && r.resent)
  }

  /** Of two calls for the same application call, the earlier one was superseded and then repeated. */
  ghost predicate ChainOk(k: Conn) {
    forall n, n' :: n in k.calls && n' in k.calls && n < n' && k.calls[n].root == k.calls[n'].root ==>
      n in k.retries && WasResent(k.retries[n]) && k.calls[n].retries < k.calls[n'].retries
  }

  /** A call that ran is over for the protocol: it never runs again and is never answered as superseded. */
  ghost predicate LogOk(k: Conn) {
    && (forall i :: 0 <= i < |k.log| ==>
          var e := k.log[i];
          && e.call in k.calls && e.root == k.calls[e.call].root && e.call !in k.retries
          && !k.calls[e.call].stage.Registered? && e.streamGeneration == e.generation)
    && (forall i, m :: 0 <= i < |k.log| && m in k.requests ==> m.call != k.log[i].call)
    && (forall i, r :: 0 <= i < |k.log| && r in k.responses && r.call == k.log[i].call ==>
          !r.response.SupersededFailure?)
    && (forall i, j :: 0 <= i < j < |k.log| ==> k.log[i].call != k.log[j].call)
  }

  predicate Leads(r: Retry) {
    r.Leading? || r.Closing? || r.Opening?
  }

  predicate PastRecovery(r: Retry) {
    r.Ready? || r.Resent? || r.GivingUp? || r.Answered?
  }

  ghost predicate RetryOk(k: Conn, n: nat)
    requires n in k.retries && n in k.calls
  {
    && k.calls[n].request.OnStream? && !k.calls[n].stage.Registered?
    && (Leads(k.retries[n]) <==> k.core.recovering == Some(n))
    && (Leads(k.retries[n]) || k.retries[n].Following? || k.retries[n].Ready? ==>
          k.calls[n].retries < MAX_STREAM_RETRIES)
    && match k.retries[n]
       case Following(leader) =>
         leader in k.retries && leader != n && (k.core.recovering == Some(leader) || PastRecovery(k.retries[leader]))
       case Closing(c) => c in k.calls && c > n && k.calls[c].origin == CloseFor(n)
       case Opening(c) => c in k.calls && c > n && k.calls[c].origin == OpenFor(n)
       case Resent(c) => c in k.calls && c > n && k.calls[c].origin == RetryOf(n)
       case _ => true
  }

  /** Only stream requests are retried; one goroutine at most leads a recovery, and it is the one `recovering` names. */
  ghost predicate RecoveryOk(k: Conn) {
    && (forall n :: n in k.retries ==> n in k.calls)
    && (forall n {:trigger RetryOk(k, n)} :: n in k.retries ==> RetryOk(k, n))
    && (k.core.recovering.Some? ==> k.core.recovering.value in k.retries)
  }

  ghost predicate RanFor(k: Conn, root: nat) {
    exists i :: 0 <= i < |k.log| && k.log[i].root == root
  }

  lemma RetryOkAt(k: Conn, n: nat)
    requires RecoveryOk(k) && n in k.retries
    ensures n in k.calls && RetryOk(k, n)
  {
    assert RetryOk(k, n);
  }

  predicate GaveUp(r: Retry) {
    r.GivingUp? || r == Answered(false)
  }

  /** The last call for `root` was superseded and will not be repeated. */
  ghost predicate Abandoned(k: Conn, root: nat) {
    exists d :: d in k.calls && k.calls[d].root == root && d in k.retries && GaveUp(k.retries[d])
  }

  predicate SaysSuperseded(r: Result) {
    r == Failed(SupersededStream)
  }

  ghost predicate ResultOk(k: Conn, n: nat, result: Result)
    requires n in k.calls
  {
    && (result.Data? && k.calls[n].request.OnStream? ==> RanFor(k, k.calls[n].root))
    && (SaysSuperseded(result) ==> Abandoned(k, k.calls[n].root))
  }

  ghost predicate ReplyOk(k: Conn, r: ResponseMsg) {
    r.call in k.calls && r.response.Success? && k.calls[r.call].request.OnStream? ==> RanFor(k, k.calls[r.call].root)
  }

  ghost predicate CallAnswerOk(k: Conn, n: nat)
    requires n in k.calls
  {
    && (|Sent(k.core, n)| == 1 ==> ResultOk(k, n, Sent(k.core, n)[0]))
    && (k.calls[n].stage.Returned? ==> ResultOk(k, n, k.calls[n].stage.result))
  }

  /** Success is only reported of what ran; the superseded error only of what is abandoned. */
  ghost predicate AnswersOk(k: Conn) {
    && (forall r {:trigger ReplyOk(k, r)} :: r in k.responses ==> ReplyOk(k, r))
    && (forall n {:trigger CallAnswerOk(k, n)} :: n in k.calls ==> CallAnswerOk(k, n))
  }

  ghost predicate InFlight(k: Conn, n: nat) {
    || (exists m :: m in k.requests && m.call == n)
    || (exists r :: r in k.responses && r.call == n)
  }

  /** The wire id of a call is in use while its caller has not returned, and while a message about it is in flight. */
  ghost predicate Live(k: Conn, n: nat) {
    n in k.calls && (!k.calls[n].stage.Returned? || InFlight(k, n))
  }

  /** No two calls use the same wire id. */
  ghost predicate IdsApart(k: Conn) {
    forall a: nat, b: nat {:trigger Live(k, a), Live(k, b)} ::
      Live(k, a) && Live(k, b) && WireId(a) == WireId(b) ==> a == b
  }

  /** The wire id of the next call is not in use. */
  ghost predicate NextIdFree(k: Conn) {
    forall n: nat {:trigger Live(k, n)} :: Live(k, n) ==> WireId(n) != WireId(k.sent + 1)
  }

  ghost predicate Inv(k: Conn) {
    && Shape(k) && Ancestry(k) && PendingOk(k) && ChannelsOk(k) && NetworkOk(k)
    && ChainOk(k) && LogOk(k) && RecoveryOk(k) && AnswersOk(k) && IdsApart(k)
  }

  lemma WireIdSteps(n: nat)
    ensures NextId(WireId(n)) == WireId(n + 1)
  {
  }

  /** A call that starts takes a free id, or none because the connection is closed. */
  ghost predicate MayBegin(k: Conn) {
    k.core.closed || NextIdFree(k)
  }

  /** A waiter is that of a call in use. */
  lemma WaitersAreLive(k: Conn, id: int32)
    requires PendingOk(k) && id in k.core.pending
    ensures Live(k, k.core.pending[id].chan) && WireId(k.core.pending[id].chan) == id
  {
    hide WireId;
  }

  lemma NextIdNotPending(k: Conn)
    requires Shape(k) && PendingOk(k) && NextIdFree(k)
    ensures NextId(k.core.seqNo) !in k.core.pending
  {
    WireIdSteps(k.sent);
    var id := NextId(k.core.seqNo);
    hide WireId, Live;
    if id in k.core.pending { WaitersAreLive(k, id); }
  }

  lemma IdsKept(k: Conn, k': Conn)
    requires IdsApart(k)
    requires forall n :: n in k'.calls ==> n in k.calls && (k.calls[n].stage.Returned? ==> k'.calls[n].stage.Returned?)
    requires k'.requests <= k.requests && k'.responses <= k.responses
    ensures IdsApart(k')
  {
    hide WireId;
    forall n: nat | Live(k', n) ensures Live(k, n) { StillLive(k, k', n); }
  }

  lemma StillLive(k: Conn, k': Conn, n: nat)
    requires n in k'.calls ==> n in k.calls && (k.calls[n].stage.Returned? ==> k'.calls[n].stage.Returned?)
    requires k'.requests <= k.requests && k'.responses <= k.responses
    requires Live(k', n)
    ensures Live(k, n)
  {
    assert forall m :: m in k'.requests ==> m in k.requests;
    assert forall r :: r in k'.responses ==> r in k.responses;
  }

  lemma BeginKeepsIds(k: Conn, root: nat, retries: nat, request: Request, origin: Origin)
    requires Shape(k) && NetworkOk(k) && IdsApart(k) && MayBegin(k)
    ensures IdsApart(Begin(k, root, retries, request, origin))
  {
    var k' := Begin(k, root, retries, request, origin);
    hide WireId;
    forall n: nat | Live(k', n) ensures Live(k, n) || (n == k.sent + 1 && !k.core.closed) {
      if n == k.sent + 1 {
        assert forall m :: m in k.requests ==> RequestOk(k, m);
        assert forall r :: r in k.responses ==> ResponseOk(k, r);
      }
    }
  }

  lemma WritesKeepsIds(k: Conn, n: nat)
    requires n in k.calls && k.calls[n].stage.Registered? && IdsApart(k)
    ensures IdsApart(Writes(k, n))
  {
    var k' := Writes(k, n);
    hide WireId;
    forall m: nat | Live(k', m) ensures Live(k, m) {}
  }

  lemma ServesKeepsIds(generation: nat, k: Conn, m: RequestMsg, env: Env)
    requires m in k.requests && m.call in k.calls && IdsApart(k)
    ensures IdsApart(Serves(generation, k, m, env))
  {
    var k' := Serves(generation, k, m, env);
    hide WireId, Handle;
    forall n: nat | Live(k', n) ensures Live(k, n) {}
  }

  /** From k to k' nothing is forgotten of what the answers rest on. */
  ghost predicate Grows(k: Conn, k': Conn) {
    && (forall n :: n in k.calls ==> n in k'.calls && k'.calls[n].root == k.calls[n].root)
    && (forall n :: n in k.retries && GaveUp(k.retries[n]) ==> n in k'.retries && GaveUp(k'.retries[n]))
    && k.log <= k'.log
  }

  lemma GrowthKeepsFacts(k: Conn, k': Conn)
    requires Grows(k, k')
    ensures forall root {:trigger RanFor(k', root)} :: RanFor(k, root) ==> RanFor(k', root)
    ensures forall root {:trigger Abandoned(k', root)} :: Abandoned(k, root) ==> Abandoned(k', root)
  {
    forall root | RanFor(k, root) ensures RanFor(k', root) {
      var i :| 0 <= i < |k.log| && k.log[i].root == root;
      assert k'.log[i].root == root;
    }
  }

  lemma ChainKept(k: Conn, k': Conn)
    requires SameCalls(k, k') && ChainOk(k)
    requires forall n :: n in k.retries && WasResent(k.retries[n]) ==> n in k'.retries && WasResent(k'.retries[n])
    ensures ChainOk(k')
  {
  }

  /** k' has the same calls as k, up to their stages. */
  ghost predicate SameCalls(k: Conn, k': Conn) {
    && (forall n :: n in k.calls <==> n in k'.calls)
    && (forall n :: n in k.calls ==>
          k'.calls[n] == k.calls[n].(stage := k'.calls[n].stage)
          && (k'.calls[n].stage.Registered? ==> k.calls[n].stage.Registered?))
  }

  lemma AncestryKept(k: Conn, k': Conn)
    requires SameCalls(k, k') && Ancestry(k)
    ensures Ancestry(k')
  {
    forall m | m in k'.calls ensures OriginOk(k', m) { assert OriginOk(k, m); }
  }

  /** Fewer messages in flight, about calls that are as far as before; a retry only begins for a call without any. */
  ghost predicate Quieter(k: Conn, k': Conn) {
    && k'.requests <= k.requests && k'.responses <= k.responses && k'.log == k.log
    && (forall n :: n in k.calls ==>
          && n in k'.calls && k'.calls[n].request == k.calls[n].request && k'.calls[n].root == k.calls[n].root
          && (k'.calls[n].stage.Registered? ==> k.calls[n].stage.Registered?))
    && (forall n :: n in k'.retries ==> n in k.retries || Unheard(k', n))
  }

  lemma FewerMessages(requests: multiset<RequestMsg>, responses: multiset<ResponseMsg>,
                      requests': multiset<RequestMsg>, responses': multiset<ResponseMsg>)
    requires requests' <= requests && responses' <= responses && OneMessageEach(requests, responses)
    ensures OneMessageEach(requests', responses')
  {
    assert forall m :: m in requests' ==> m in requests;
    assert forall r :: r in responses' ==> r in responses;
  }

  lemma RequestsKept(k: Conn, k': Conn)
    requires (forall m :: m in k.requests ==> RequestOk(k, m)) && Quieter(k, k')
    ensures forall m :: m in k'.requests ==> RequestOk(k', m)
  {
    hide WireId;
    forall m | m in k'.requests ensures RequestOk(k', m) {
      assert m in k.requests && k'.requests[m] <= k.requests[m];
    }
  }

  lemma ResponsesKept(k: Conn, k': Conn)
    requires (forall r :: r in k.responses ==> ResponseOk(k, r)) && Quieter(k, k')
    ensures forall r :: r in k'.responses ==> ResponseOk(k', r)
  {
    hide WireId;
    forall r | r in k'.responses ensures ResponseOk(k', r) {
      assert r in k.responses && k'.responses[r] <= k.responses[r];
    }
  }

  lemma LogKept(k: Conn, k': Conn)
    requires LogOk(k) && Quieter(k, k')
    ensures LogOk(k')
  {
    hide WireId;
  }

  lemma MessagesKept(k: Conn, k': Conn)
    requires NetworkOk(k) && LogOk(k) && Quieter(k, k')
    ensures NetworkOk(k') && LogOk(k')
  {
    hide RequestOk, ResponseOk, LogOk, OneMessageEach, Unheard;
    RequestsKept(k, k');
    ResponsesKept(k, k');
    FewerMessages(k.requests, k.responses, k'.requests, k'.responses);
    LogKept(k, k');
  }

  /** Nothing in flight and nothing in the log is about call n. */
  ghost predicate Unheard(k: Conn, n: nat) {
    && (forall m :: m in k.requests ==> m.call != n)
    && (forall r :: r in k.responses ==> r.call != n)
    && (forall i :: 0 <= i < |k.log| ==> k.log[i].call != n)
  }

  // A call starts: for the application, or for the recovery led for another call.

  lemma BeginKeepsShape(k: Conn, root: nat, retries: nat, request: Request, origin: Origin)
    requires Shape(k)
    ensures Shape(Begin(k, root, retries, request, origin))
  {
    WireIdSteps(k.sent);
  }

  lemma BeginKeepsAncestry(k: Conn, request: Request, origin: Origin)
    requires Shape(k) && Ancestry(k)
    requires origin.User? || (!origin.RetryOf? && !request.OnStream?)
    ensures Ancestry(Begin(k, k.sent + 1, 0, request, origin))
  {
    var k' := Begin(k, k.sent + 1, 0, request, origin);
    hide WireId;
    forall n | n in k'.calls ensures OriginOk(k', n) { if n in k.calls { assert OriginOk(k, n); } }
  }

  lemma BeginKeepsChannels(k: Conn, root: nat, retries: nat, request: Request, origin: Origin)
    requires Shape(k) && PendingOk(k) && ChannelsOk(k) && MayBegin(k)
    ensures var k' := Begin(k, root, retries, request, origin); PendingOk(k') && ChannelsOk(k')
  {
    WireIdSteps(k.sent);
    if !k.core.closed { NextIdNotPending(k); }
    hide WireId, NextIdFree;
    var k' := Begin(k, root, retries, request, origin);
    forall n | n in k'.calls ensures ChannelOk(k', n) { if n in k.calls { assert ChannelOk(k, n); } }
  }

  lemma BeginKeepsMessages(k: Conn, root: nat, retries: nat, request: Request, origin: Origin)
    requires Shape(k) && NetworkOk(k) && LogOk(k)
    ensures var k' := Begin(k, root, retries, request, origin); NetworkOk(k') && LogOk(k')
  {
    hide NetworkOk, LogOk, WireId;
    MessagesKept(k, Begin(k, root, retries, request, origin));
  }

  lemma BeginKeepsChain(k: Conn, request: Request, origin: Origin)
    requires Shape(k) && Ancestry(k) && ChainOk(k)
    ensures ChainOk(Begin(k, k.sent + 1, 0, request, origin))
  {
    hide WireId;
    forall n | n in k.calls ensures k.calls[n].root <= k.sent { assert OriginOk(k, n); }
  }

  lemma BeginKeepsRecovery(k: Conn, root: nat, retries: nat, request: Request, origin: Origin)
    requires Shape(k) && RecoveryOk(k)
    ensures RecoveryOk(Begin(k, root, retries, request, origin))
  {
    var k' := Begin(k, root, retries, request, origin);
    forall n | n in k'.retries ensures n in k'.calls && RetryOk(k', n) { assert RetryOk(k, n); }
  }

  lemma BeginKeepsAnswers(k: Conn, root: nat, retries: nat, request: Request, origin: Origin)
    requires Shape(k) && NetworkOk(k) && AnswersOk(k)
    ensures AnswersOk(Begin(k, root, retries, request, origin))
  {
    var k' := Begin(k, root, retries, request, origin);
    hide WireId, RanFor, Abandoned, CallAnswerOk, Sent;
    forall n | n in k'.calls ensures CallAnswerOk(k', n) {
      assert n in k.calls ==> CallAnswerOk(k, n);
      BeginKeepsAnswer(k, root, retries, request, origin, n);
    }
    forall r | r in k'.responses ensures ReplyOk(k', r) {
      assert ReplyOk(k, r);
      GrowthKeepsFacts(k, k');
    }
  }

  lemma BeginKeepsAnswer(k: Conn, root: nat, retries: nat, request: Request, origin: Origin, n: nat)
    requires Shape(k) && (n in k.calls ==> CallAnswerOk(k, n))
    ensures var k' := Begin(k, root, retries, request, origin); n in k'.calls ==> CallAnswerOk(k', n)
  {
    var k' := Begin(k, root, retries, request, origin);
    GrowthKeepsFacts(k, k');
    hide WireId, RanFor, Abandoned;
  }

  // A retried call starts again.

  lemma ResendKeepsAncestry(k: Conn, n: nat, id: int32)
    requires Shape(k) && Ancestry(k) && n in k.retries && n in k.calls && RetryOk(k, n) && k.retries[n].Ready?
    ensures Ancestry(Begin(k, k.calls[n].root, k.calls[n].retries + 1, OnNewStream(k.calls[n].request, id), RetryOf(n)))
  {
    var k' := Begin(k, k.calls[n].root, k.calls[n].retries + 1, OnNewStream(k.calls[n].request, id), RetryOf(n));
    hide WireId;
    assert OriginOk(k, n);
    forall m | m in k'.calls ensures OriginOk(k', m) { if m in k.calls { assert OriginOk(k, m); } }
  }

  /** The repeated call is the last of its chain: any later one would mean that it had been repeated before. */
  lemma ResendKeepsChain(k: Conn, n: nat, id: int32)
    requires Shape(k) && ChainOk(k) && n in k.retries && n in k.calls && k.retries[n].Ready?
    ensures ChainOk(SetRetry(
                      Begin(k, k.calls[n].root, k.calls[n].retries + 1, OnNewStream(k.calls[n].request, id), RetryOf(n)),
                      n, Resent(k.sent + 1)))
  {
    var k' := SetRetry(
                Begin(k, k.calls[n].root, k.calls[n].retries + 1, OnNewStream(k.calls[n].request, id), RetryOf(n)),
                n, Resent(k.sent + 1));
    hide WireId;
    assert WasResent(k'.retries[n]);
    forall a, b | a in k'.calls && b in k'.calls && a < b && k'.calls[a].root == k'.calls[b].root
      ensures a in k'.retries && WasResent(k'.retries[a]) && k'.calls[a].retries < k'.calls[b].retries
    {
      if b == k.sent + 1 && a < n {
        assert k.calls[a].root == k.calls[n].root;
      }
    }
  }

  // A retry goroutine moves on, perhaps taking or leaving the lead of the recovery.

  function Move(k: Conn, n: nat, r: Retry, recovering: Option<nat>, id: int32): Conn {
    SetRetry(k.(core := k.core.(recovering := recovering, streamId := id)), n, r)
  }

  lemma MoveKeepsChannels(k: Conn, n: nat, r: Retry, recovering: Option<nat>, id: int32)
    requires n in k.retries && PendingOk(k) && ChannelsOk(k)
    requires !k.retries[n].Answered? && !r.Answered?
    ensures var k' := Move(k, n, r, recovering, id); PendingOk(k') && ChannelsOk(k')
  {
    var k' := Move(k, n, r, recovering, id);
    hide WireId;
    forall m | m in k'.calls ensures ChannelOk(k', m) { assert ChannelOk(k, m); }
  }

  lemma MoveKeepsShape(k: Conn, n: nat, r: Retry, recovering: Option<nat>, id: int32)
    requires n in k.retries && Shape(k)
    ensures Shape(Move(k, n, r, recovering, id))
  {
    hide WireId;
  }

  lemma MoveKeepsAnswers(k: Conn, n: nat, r: Retry, recovering: Option<nat>, id: int32)
    requires n in k.retries && NetworkOk(k) && AnswersOk(k)
    requires !GaveUp(k.retries[n])
    ensures AnswersOk(Move(k, n, r, recovering, id))
  {
    var k' := Move(k, n, r, recovering, id);
    GrowthKeepsFacts(k, k');
    hide WireId, RanFor, Abandoned;
    forall m | m in k'.responses ensures ReplyOk(k', m) { assert ReplyOk(k, m); }
    forall m | m in k'.calls ensures CallAnswerOk(k', m) { assert CallAnswerOk(k, m); }
  }

  lemma MoveKeepsRecovery(k: Conn, n: nat, r: Retry, recovering: Option<nat>, id: int32)
    requires n in k.retries && Shape(k) && RecoveryOk(k)
    requires recovering == k.core.recovering || (k.core.recovering.None? && recovering == Some(n))
          || (k.core.recovering == Some(n) && recovering.None? && PastRecovery(r))
    requires PastRecovery(k.retries[n]) ==> PastRecovery(r)
    requires RetryOk(Move(k, n, r, recovering, id), n)
    ensures RecoveryOk(Move(k, n, r, recovering, id))
  {
    var k' := Move(k, n, r, recovering, id);
    hide WireId;
    assert RetryOk(k, n);
    forall m | m in k'.retries ensures m in k'.calls && RetryOk(k', m) { assert RetryOk(k, m); }
  }

  // Steps that only change stages, channels or messages.

  /** k' has the same calls, up to their stages, and the same retry goroutines as k. */
  ghost predicate SameKin(k: Conn, k': Conn) {
    && SameCalls(k, k') && k'.sent == k.sent && k'.retries == k.retries
    && k'.core.seqNo == k.core.seqNo && k'.core.recovering == k.core.recovering
    && k'.core.chans.Keys == k.core.chans.Keys
  }

  lemma SameKinKeeps(k: Conn, k': Conn)
    requires SameKin(k, k') && Shape(k) && Ancestry(k) && ChainOk(k) && RecoveryOk(k)
    ensures Shape(k') && Ancestry(k') && ChainOk(k') && RecoveryOk(k')
  {
    SameKinKeepsShape(k, k');
    SameKinKeepsRecovery(k, k');
    hide Shape, Ancestry, ChainOk, RecoveryOk, SameCalls;
    AncestryKept(k, k');
    ChainKept(k, k');
  }

  lemma SameKinKeepsShape(k: Conn, k': Conn)
    requires SameKin(k, k') && Shape(k)
    ensures Shape(k')
  {
    hide WireId;
  }

  lemma SameKinKeepsRecovery(k: Conn, k': Conn)
    requires SameKin(k, k') && Shape(k) && RecoveryOk(k)
    ensures RecoveryOk(k')
  {
    hide WireId;
    forall m | m in k'.retries ensures m in k'.calls && RetryOk(k', m) { assert RetryOk(k, m); }
  }

  lemma ChannelsKept(k: Conn, k': Conn)
    requires k'.calls == k.calls && k'.retries == k.retries
    requires k'.core.pending == k.core.pending && k'.core.chans == k.core.chans
    requires PendingOk(k) && ChannelsOk(k)
    ensures PendingOk(k') && ChannelsOk(k')
  {
    hide WireId;
    forall n | n in k'.calls ensures ChannelOk(k', n) { assert ChannelOk(k, n); }
  }

  lemma AnswersKept(k: Conn, k': Conn)
    requires k'.calls == k.calls && k'.retries == k.retries && k'.log == k.log
    requires k'.responses <= k.responses && k'.core.chans == k.core.chans
    requires AnswersOk(k)
    ensures AnswersOk(k')
  {
    GrowthKeepsFacts(k, k');
    hide WireId, RanFor, Abandoned;
    forall r | r in k'.responses ensures ReplyOk(k', r) { assert ReplyOk(k, r); }
    forall m | m in k'.calls ensures CallAnswerOk(k', m) { assert CallAnswerOk(k, m); }
  }

  lemma WritesKeepsChannels(k: Conn, n: nat)
    requires n in k.calls && k.calls[n].stage.Registered? && PendingOk(k) && ChannelsOk(k)
    ensures PendingOk(Writes(k, n)) && ChannelsOk(Writes(k, n))
  {
    var k' := Writes(k, n);
    hide WireId;
    forall m | m in k'.calls ensures ChannelOk(k', m) { assert ChannelOk(k, m); }
  }

  lemma WritesKeepsMessages(k: Conn, n: nat)
    requires n in k.calls && n !in k.retries && k.calls[n].stage.Registered? && NetworkOk(k) && LogOk(k)
    ensures NetworkOk(Writes(k, n)) && LogOk(Writes(k, n))
  {
    WritesKeepsNetwork(k, n);
    WritesKeepsLog(k, n);
  }

  lemma WritesKeepsNetwork(k: Conn, n: nat)
    requires n in k.calls && n !in k.retries && k.calls[n].stage.Registered? && NetworkOk(k) && LogOk(k)
    ensures NetworkOk(Writes(k, n))
  {
    hide WireId;
  }

  lemma WritesKeepsLog(k: Conn, n: nat)
    requires n in k.calls && n !in k.retries && k.calls[n].stage.Registered? && NetworkOk(k) && LogOk(k)
    ensures LogOk(Writes(k, n))
  {
    hide WireId;
  }

  lemma WritesKeepsAnswers(k: Conn, n: nat)
    requires n in k.calls && k.calls[n].stage.Registered? && AnswersOk(k)
    ensures AnswersOk(Writes(k, n))
  {
    var k' := Writes(k, n);
    GrowthKeepsFacts(k, k');
    hide WireId, RanFor, Abandoned;
    forall m | m in k'.responses ensures ReplyOk(k', m) { assert ReplyOk(k, m); }
    forall m | m in k'.calls ensures CallAnswerOk(k', m) { assert CallAnswerOk(k, m); }
  }

  lemma GivesUpKeepsChannels(k: Conn, n: nat, reason: Reason)
    requires n in k.calls && !k.calls[n].stage.Returned?
    requires Shape(k) && PendingOk(k) && ChannelsOk(k) && IdsApart(k)
    ensures PendingOk(GivesUp(k, n, reason)) && ChannelsOk(GivesUp(k, n, reason))
  {
    var k' := GivesUp(k, n, reason);
    if WireId(n) in k.core.pending {
      WaitersAreLive(k, WireId(n));
      assert Live(k, n) && k.core.pending[WireId(n)].chan == n;
    }
    hide WireId, Live, IdsApart;
    forall m | m in k'.calls ensures ChannelOk(k', m) { assert ChannelOk(k, m); }
  }

  lemma StageKeepsAnswers(k: Conn, n: nat, result: Result)
    requires n in k.calls && AnswersOk(k) && ResultOk(k, n, result)
    ensures AnswersOk(SetStage(k, n, Returned(result)))
  {
    var k' := SetStage(k, n, Returned(result));
    GrowthKeepsFacts(k, k');
    hide WireId, RanFor, Abandoned;
    forall m | m in k'.responses ensures ReplyOk(k', m) { assert ReplyOk(k, m); }
    forall m | m in k'.calls ensures CallAnswerOk(k', m) { assert CallAnswerOk(k, m); }
  }

  lemma ReceiveKeepsChannels(k: Conn, n: nat)
    requires n in k.calls && Sent(k.core, n) != [] && PendingOk(k) && ChannelsOk(k)
    ensures var k' := SetStage(k, n, Returned(Sent(k.core, n)[0])); PendingOk(k') && ChannelsOk(k')
  {
    var k' := SetStage(k, n, Returned(Sent(k.core, n)[0]));
    hide WireId;
    forall m | m in k'.calls ensures ChannelOk(k', m) { assert ChannelOk(k, m); }
  }

  lemma ServesKeepsNetwork(generation: nat, k: Conn, m: RequestMsg, env: Env)
    requires m in k.requests && m.call in k.calls && StreamsOk(generation, k.streams) && NetworkOk(k)
    ensures NetworkOk(Serves(generation, k, m, env))
  {
    hide WireId;
    HandleKeepsStreams(generation, k.streams, m.request, env);
    hide Handle, StreamsOk;
  }

  lemma ServesKeepsLog(generation: nat, k: Conn, m: RequestMsg, env: Env)
    requires m in k.requests && m.call in k.calls && StreamsOk(generation, k.streams) && NetworkOk(k) && LogOk(k)
    ensures LogOk(Serves(generation, k, m, env))
  {
    hide WireId;
    HandleKeepsStreams(generation, k.streams, m.request, env);
    hide Handle, StreamsOk;
  }

  lemma ServesKeepsAnswers(generation: nat, k: Conn, m: RequestMsg, env: Env)
    requires m in k.requests && m.call in k.calls && NetworkOk(k) && AnswersOk(k)
    ensures AnswersOk(Serves(generation, k, m, env))
  {
    var k' := Serves(generation, k, m, env);
    GrowthKeepsFacts(k, k');
    assert k'.log != k.log ==> k'.log[|k.log|].root == k.calls[m.call].root;
    assert k'.log != k.log ==> RanFor(k', k.calls[m.call].root);
    hide WireId, RanFor, Abandoned;
    forall r | r in k'.responses ensures ReplyOk(k', r) { if r in k.responses { assert ReplyOk(k, r); } }
    forall n | n in k'.calls ensures CallAnswerOk(k', n) { assert CallAnswerOk(k, n); }
  }

  lemma SettlesKeepsChannels(k: Conn, m: ResponseMsg, result: Result)
    requires Shape(k) && PendingOk(k) && ChannelsOk(k)
    ensures PendingOk(Settles(k, m, result)) && ChannelsOk(Settles(k, m, result))
  {
    var k' := Settles(k, m, result);
    hide WireId;
    forall n | n in k'.calls ensures ChannelOk(k', n) { assert ChannelOk(k, n); }
  }

  lemma SettlesKeepsAnswers(k: Conn, m: ResponseMsg, result: Result)
    requires PendingOk(k) && AnswersOk(k)
    requires m.id in k.core.pending ==> k.core.pending[m.id].chan == m.call
    requires m in k.responses && (result == Failed(Rejected) || (result.Data? && m.response.Success?))
    ensures AnswersOk(Settles(k, m, result))
  {
    var k' := Settles(k, m, result);
    GrowthKeepsFacts(k, k');
    assert ReplyOk(k, m);
    hide WireId, RanFor, Abandoned;
    forall r | r in k'.responses ensures ReplyOk(k', r) { assert ReplyOk(k, r); }
    forall n | n in k'.calls ensures CallAnswerOk(k', n) { assert CallAnswerOk(k, n); }
  }

  lemma DrainKeepsChannels(k: Conn)
    requires Shape(k) && PendingOk(k) && ChannelsOk(k)
    ensures var k' := k.(readEnded := true, core := Drain(k.core)); PendingOk(k') && ChannelsOk(k')
  {
    var k' := k.(readEnded := true, core := Drain(k.core));
    hide WireId;
    forall n | n in k'.calls ensures ChannelOk(k', n) {
      assert ChannelOk(k, n);
      assert Pending(k, n) ==> Awaited(k.core, n);
    }
  }

  lemma DrainKeepsAnswers(k: Conn)
    requires Shape(k) && PendingOk(k) && AnswersOk(k)
    ensures AnswersOk(k.(readEnded := true, core := Drain(k.core)))
  {
    var k' := k.(readEnded := true, core := Drain(k.core));
    GrowthKeepsFacts(k, k');
    hide WireId, RanFor, Abandoned;
    forall r | r in k'.responses ensures ReplyOk(k', r) { assert ReplyOk(k, r); }
    forall n | n in k'.calls ensures CallAnswerOk(k', n) { assert CallAnswerOk(k, n); }
  }

  // A superseded answer starts a retry goroutine, and the goroutine answers in the end.

  lemma RestartsKeepsChannels(k: Conn, m: ResponseMsg)
    requires m.id in k.core.pending && Shape(k) && PendingOk(k) && ChannelsOk(k)
    ensures PendingOk(Restarts(k, m)) && ChannelsOk(Restarts(k, m))
  {
    var k' := Restarts(k, m);
    hide WireId;
    forall n | n in k'.calls ensures ChannelOk(k', n) { assert ChannelOk(k, n); }
  }

  lemma RestartsTakesItsCall(k: Conn, m: ResponseMsg)
    requires m in k.responses && m.id in k.core.pending
    requires PendingOk(k) && NetworkOk(k) && IdsApart(k)
    ensures k.core.pending[m.id].chan == m.call
  {
    hide WireId;
    WaitersAreLive(k, m.id);
    assert ResponseOk(k, m);
    assert InFlight(k, m.call) && Live(k, m.call);
  }

  lemma RestartsIsQuieter(k: Conn, m: ResponseMsg)
    requires m in k.responses && m.response.SupersededFailure? && m.id in k.core.pending
    requires k.core.pending[m.id].chan == m.call && NetworkOk(k) && LogOk(k)
    ensures Quieter(k, Restarts(k, m))
  {
    hide WireId;
  }

  lemma RestartsKeepsRecovery(k: Conn, m: ResponseMsg)
    requires m in k.responses && m.response.SupersededFailure? && m.id in k.core.pending
    requires k.core.pending[m.id].chan == m.call && m.call !in k.retries
    requires Shape(k) && NetworkOk(k) && RecoveryOk(k)
    ensures RecoveryOk(Restarts(k, m))
  {
    var k' := Restarts(k, m);
    hide WireId;
    forall n | n in k'.retries ensures n in k'.calls && RetryOk(k', n) { if n in k.retries { assert RetryOk(k, n); } }
  }

  lemma RestartsKeepsAnswers(k: Conn, m: ResponseMsg)
    requires m.id in k.core.pending && PendingOk(k) && AnswersOk(k)
    ensures AnswersOk(Restarts(k, m))
  {
    var k' := Restarts(k, m);
    GrowthKeepsFacts(k, k');
    hide WireId, RanFor, Abandoned;
    forall r | r in k'.responses ensures ReplyOk(k', r) { assert ReplyOk(k, r); }
    forall n | n in k'.calls ensures CallAnswerOk(k', n) { assert CallAnswerOk(k, n); }
  }

  lemma AnswerKeepsChannels(k: Conn, n: nat, result: Result, resent: bool)
    requires n in k.retries && !k.retries[n].Answered? && Shape(k) && PendingOk(k) && ChannelsOk(k)
    ensures var k' := Answer(k, n, result, resent); PendingOk(k') && ChannelsOk(k')
  {
    var k' := Answer(k, n, result, resent);
    hide WireId;
    assert ChannelOk(k, n);
    forall m | m in k'.calls ensures ChannelOk(k', m) { assert ChannelOk(k, m); }
  }

  lemma AnswerKeepsRecovery(k: Conn, n: nat, result: Result, resent: bool)
    requires n in k.retries && PastRecovery(k.retries[n]) && Shape(k) && RecoveryOk(k)
    ensures RecoveryOk(Answer(k, n, result, resent))
  {
    var k' := Answer(k, n, result, resent);
    hide WireId;
    assert RetryOk(k, n);
    forall m | m in k'.retries ensures m in k'.calls && RetryOk(k', m) { assert RetryOk(k, m); }
  }

  lemma AnswerKeepsAnswers(k: Conn, n: nat, result: Result, resent: bool)
    requires n in k.retries && n in k.calls && Shape(k) && ChannelsOk(k) && AnswersOk(k)
    requires !k.retries[n].Answered? && (resent <==> !GaveUp(k.retries[n])) && ResultOk(k, n, result)
    ensures AnswersOk(Answer(k, n, result, resent))
  {
    var k' := Answer(k, n, result, resent);
    assert ChannelOk(k, n);
    GrowthKeepsFacts(k, k');
    hide WireId, RanFor, Abandoned;
    forall r | r in k'.responses ensures ReplyOk(k', r) { assert ReplyOk(k, r); }
    forall m | m in k'.calls ensures CallAnswerOk(k', m) { assert CallAnswerOk(k, m); }
  }
}
