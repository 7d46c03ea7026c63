/** Every step of the retry protocol keeps the whole invariant: the pieces of `RetryInvariants` put together. */
module RetrySteps {
  import opened NativeTypes
  import opened WsStreams
  import opened RetryClient
  import opened RetryProtocol
  import opened RetryInvariants

  ghost predicate AllButChainOk(k: Conn) {
    && Shape(k) && Ancestry(k) && PendingOk(k) && ChannelsOk(k) && NetworkOk(k)
    && LogOk(k) && RecoveryOk(k) && AnswersOk(k) && IdsApart(k)
  }

  lemma BeginKeepsMost(k: Conn, root: nat, retries: nat, request: Request, origin: Origin)
    requires AllButChainOk(k) && MayBegin(k) && Ancestry(Begin(k, root, retries, request, origin))
    ensures AllButChainOk(Begin(k, root, retries, request, origin))
  {
    hide Shape, Ancestry, PendingOk, ChannelsOk, NetworkOk, LogOk, RecoveryOk, AnswersOk, IdsApart, Begin;
    BeginKeepsShape(k, root, retries, request, origin);
    BeginKeepsChannels(k, root, retries, request, origin);
    BeginKeepsMessages(k, root, retries, request, origin);
    BeginKeepsRecovery(k, root, retries, request, origin);
    BeginKeepsAnswers(k, root, retries, request, origin);
    BeginKeepsIds(k, root, retries, request, origin);
  }

  lemma BeginKeeps(k: Conn, request: Request, origin: Origin)
    requires Inv(k) && MayBegin(k)
    requires origin.User? || (!origin.RetryOf? && !request.OnStream?)
    ensures Inv(Begin(k, k.sent + 1, 0, request, origin))
  {
    hide Shape, Ancestry, PendingOk, ChannelsOk, NetworkOk, ChainOk, LogOk, RecoveryOk, AnswersOk, IdsApart, Begin;
    BeginKeepsAncestry(k, request, origin);
    BeginKeepsChain(k, request, origin);
    BeginKeepsMost(k, k.sent + 1, 0, request, origin);
  }

  lemma WritesKeeps(k: Conn, n: nat)
    requires Inv(k) && n in k.calls && k.calls[n].stage.Registered?
    ensures Inv(Writes(k, n))
  {
    assert n !in k.retries by { assert n in k.retries ==> RetryOk(k, n); }
    hide Shape, Ancestry, PendingOk, ChannelsOk, NetworkOk, ChainOk, LogOk, RecoveryOk, AnswersOk, IdsApart, WireId;
    assert SameKin(k, Writes(k, n));
    SameKinKeeps(k, Writes(k, n));
    WritesKeepsChannels(k, n);
    WritesKeepsMessages(k, n);
    WritesKeepsAnswers(k, n);
    WritesKeepsIds(k, n);
  }

  lemma GivesUpKeeps(k: Conn, n: nat, reason: Reason)
    requires Inv(k) && n in k.calls && !k.calls[n].stage.Returned? && reason != SupersededStream
    ensures Inv(GivesUp(k, n, reason))
  {
    hide Shape, Ancestry, PendingOk, ChannelsOk, NetworkOk, ChainOk, LogOk, RecoveryOk, AnswersOk, IdsApart, WireId;
    var k' := SetStage(k, n, Returned(Failed(reason)));
    assert SameKin(k, GivesUp(k, n, reason));
    SameKinKeeps(k, GivesUp(k, n, reason));
    GivesUpKeepsChannels(k, n, reason);
    MessagesKept(k, GivesUp(k, n, reason));
    StageKeepsAnswers(k, n, Failed(reason));
    AnswersKept(k', GivesUp(k, n, reason));
    IdsKept(k, GivesUp(k, n, reason));
  }

  lemma ReceiveKeeps(k: Conn, n: nat)
    requires Inv(k) && n in k.calls && k.calls[n].stage.Waiting? && Sent(k.core, n) != []
    ensures Inv(SetStage(k, n, Returned(Sent(k.core, n)[0])))
  {
    var result := Sent(k.core, n)[0];
    assert ResultOk(k, n, result) by { assert ChannelOk(k, n) && CallAnswerOk(k, n); }
    hide Shape, Ancestry, PendingOk, ChannelsOk, NetworkOk, ChainOk, LogOk, RecoveryOk, AnswersOk, IdsApart, ResultOk;
    assert SameKin(k, SetStage(k, n, Returned(result)));
    SameKinKeeps(k, SetStage(k, n, Returned(result)));
    ReceiveKeepsChannels(k, n);
    MessagesKept(k, SetStage(k, n, Returned(result)));
    StageKeepsAnswers(k, n, result);
    IdsKept(k, SetStage(k, n, Returned(result)));
  }

  lemma ServesKeeps(generation: nat, k: Conn, m: RequestMsg, env: Env)
    requires Inv(k) && m in k.requests && m.call in k.calls && StreamsOk(generation, k.streams)
    ensures Inv(Serves(generation, k, m, env)) && StreamsOk(generation, Serves(generation, k, m, env).streams)
  {
    HandleKeepsStreams(generation, k.streams, m.request, env);
    var k' := Serves(generation, k, m, env);
    hide Shape, Ancestry, PendingOk, ChannelsOk, NetworkOk, ChainOk;
    hide LogOk, RecoveryOk, AnswersOk, IdsApart, Handle, StreamsOk;
    assert SameKin(k, k');
    SameKinKeeps(k, k');
    ChannelsKept(k, k');
    ServesKeepsNetwork(generation, k, m, env);
    ServesKeepsLog(generation, k, m, env);
    ServesKeepsAnswers(generation, k, m, env);
    ServesKeepsIds(generation, k, m, env);
  }

  lemma SettlesSameKin(k: Conn, m: ResponseMsg, result: Result)
    requires m.id in k.core.pending ==> k.core.pending[m.id].chan in k.core.chans
    ensures SameKin(k, Settles(k, m, result)) && Quieter(k, Settles(k, m, result))
  {
    hide WireId;
  }

  lemma WaiterHasChannel(k: Conn, m: ResponseMsg)
    requires Shape(k) && PendingOk(k)
    ensures m.id in k.core.pending ==> k.core.pending[m.id].chan in k.core.chans
  {
    hide WireId;
  }

  lemma SettlesKeeps(k: Conn, m: ResponseMsg, result: Result)
    requires Inv(k)
    requires m in k.responses && (result == Failed(Rejected) || (result.Data? && m.response.Success?))
    ensures Inv(Settles(k, m, result))
  {
    hide Shape, Ancestry, PendingOk, ChannelsOk, NetworkOk, ChainOk, LogOk, RecoveryOk, AnswersOk, IdsApart;
    hide SameKin, Quieter;
    WaiterHasChannel(k, m);
    if m.id in k.core.pending { RestartsTakesItsCall(k, m); }
    SettlesSameKin(k, m, result);
    SameKinKeeps(k, Settles(k, m, result));
    SettlesKeepsChannels(k, m, result);
    MessagesKept(k, Settles(k, m, result));
    SettlesKeepsAnswers(k, m, result);
    IdsKept(k, Settles(k, m, result));
  }

  lemma RestartsKeeps(k: Conn, m: ResponseMsg)
    requires Inv(k)
    requires m in k.responses && m.response.SupersededFailure? && m.id in k.core.pending
    ensures Inv(Restarts(k, m))
  {
    RestartsTakesItsCall(k, m);
    assert m.call !in k.retries && m.call in k.calls;
    var k' := Restarts(k, m);
    assert Shape(k') by { hide WireId, Ancestry, ChannelsOk, NetworkOk, ChainOk, LogOk, RecoveryOk, AnswersOk, IdsApart; }
    hide Shape, Ancestry, PendingOk, ChannelsOk, NetworkOk, ChainOk, LogOk, RecoveryOk, AnswersOk, IdsApart;
    AncestryKept(k, k');
    ChainKept(k, k');
    RestartsKeepsChannels(k, m);
    RestartsIsQuieter(k, m);
    MessagesKept(k, k');
    RestartsKeepsRecovery(k, m);
    RestartsKeepsAnswers(k, m);
    IdsKept(k, k');
  }

  lemma LossKeeps(k: Conn, k': Conn)
    requires Inv(k) && k' == k.(requests := k'.requests, responses := k'.responses)
    requires k'.requests <= k.requests && k'.responses <= k.responses
    ensures Inv(k')
  {
    hide Shape, Ancestry, PendingOk, ChannelsOk, NetworkOk, ChainOk, LogOk, RecoveryOk, AnswersOk, IdsApart;
    SameKinKeeps(k, k');
    ChannelsKept(k, k');
    MessagesKept(k, k');
    AnswersKept(k, k');
    IdsKept(k, k');
  }

  lemma DrainKeeps(k: Conn)
    requires Inv(k)
    ensures Inv(k.(readEnded := true, core := Drain(k.core)))
  {
    var k' := k.(readEnded := true, core := Drain(k.core));
    hide Shape, Ancestry, PendingOk, ChannelsOk, NetworkOk, ChainOk, LogOk, RecoveryOk, AnswersOk, IdsApart;
    SameKinKeeps(k, k');
    MessagesKept(k, k');
    DrainKeepsChannels(k);
    DrainKeepsAnswers(k);
    IdsKept(k, k');
  }

  /** Closing the connection and losing the session touch nothing the invariant speaks about. */
  lemma ClosingKeeps(k: Conn, closed: bool, streams: Streams)
    requires Inv(k)
    ensures Inv(k.(core := k.core.(closed := closed), streams := streams))
  {
    var k' := k.(core := k.core.(closed := closed), streams := streams);
    hide Shape, Ancestry, PendingOk, ChannelsOk, NetworkOk, ChainOk, LogOk, RecoveryOk, AnswersOk, IdsApart;
    SameKinKeeps(k, k');
    ChannelsKept(k, k');
    MessagesKept(k, k');
    AnswersKept(k, k');
    IdsKept(k, k');
  }

  lemma MoveKeeps(k: Conn, n: nat, r: Retry, recovering: Option<nat>, id: int32)
    requires Inv(k) && n in k.retries && !k.retries[n].Answered? && !r.Answered?
    requires !WasResent(k.retries[n]) && !GaveUp(k.retries[n])
    requires recovering == k.core.recovering || (k.core.recovering.None? && recovering == Some(n))
          || (k.core.recovering == Some(n) && recovering.None? && PastRecovery(r))
    requires PastRecovery(k.retries[n]) ==> PastRecovery(r)
    requires n in k.calls && RetryOk(Move(k, n, r, recovering, id), n)
    ensures Inv(Move(k, n, r, recovering, id))
  {
    var k' := Move(k, n, r, recovering, id);
    hide Shape, Ancestry, PendingOk, ChannelsOk, NetworkOk, ChainOk, LogOk, RecoveryOk, AnswersOk, IdsApart, RetryOk;
    AncestryKept(k, k');
    MoveKeepsShape(k, n, r, recovering, id);
    ChainKept(k, k');
    MoveKeepsChannels(k, n, r, recovering, id);
    MessagesKept(k, k');
    MoveKeepsAnswers(k, n, r, recovering, id);
    MoveKeepsRecovery(k, n, r, recovering, id);
    IdsKept(k, k');
  }

  lemma AnswerKeepsShape(k: Conn, n: nat, result: Result, resent: bool)
    requires Shape(k) && n in k.retries && n in k.calls
    requires if resent then k.retries[n].Resent? else k.retries[n].GivingUp?
    ensures Shape(Answer(k, n, result, resent)) && Quieter(k, Answer(k, n, result, resent))
    ensures SameCalls(k, Answer(k, n, result, resent))
  {
    hide WireId;
  }

  lemma AnswerKeepsChain(k: Conn, n: nat, result: Result, resent: bool)
    requires ChainOk(k) && n in k.retries && n in k.calls
    requires if resent then k.retries[n].Resent? else k.retries[n].GivingUp?
    ensures ChainOk(Answer(k, n, result, resent))
  {
    ChainKept(k, Answer(k, n, result, resent));
  }

  lemma AnswerKeeps(k: Conn, n: nat, result: Result, resent: bool)
    requires Inv(k) && n in k.retries && n in k.calls
    requires if resent then k.retries[n].Resent? else k.retries[n].GivingUp?
    requires ResultOk(k, n, result)
    ensures Inv(Answer(k, n, result, resent))
  {
    hide Shape, Ancestry, PendingOk, ChannelsOk, NetworkOk, ChainOk, LogOk, RecoveryOk, AnswersOk, IdsApart, ResultOk;
    hide SameCalls, Quieter;
    var k' := Answer(k, n, result, resent);
    AnswerKeepsShape(k, n, result, resent);
    AncestryKept(k, k');
    AnswerKeepsChain(k, n, result, resent);
    AnswerKeepsChannels(k, n, result, resent);
    MessagesKept(k, k');
    AnswerKeepsRecovery(k, n, result, resent);
    AnswerKeepsAnswers(k, n, result, resent);
    IdsKept(k, k');
  }

  /** The call that repeats call n, before the goroutine of n has noted it. */
  function Again(k: Conn, n: nat): Conn
    requires n in k.calls
  {
    Begin(k, k.calls[n].root, k.calls[n].retries + 1, OnNewStream(k.calls[n].request, k.core.streamId), RetryOf(n))
  }

  lemma ResentIsOk(k: Conn, n: nat)
    requires Shape(k) && RecoveryOk(k) && n in k.retries && n in k.calls && k.retries[n].Ready?
    ensures RetryOk(SetRetry(Again(k, n), n, Resent(k.sent + 1)), n)
  {
    assert RetryOk(k, n);
  }

  lemma ResendKeeps(k: Conn, n: nat)
    requires Inv(k) && MayBegin(k) && n in k.retries && n in k.calls && k.retries[n].Ready?
    ensures Inv(SetRetry(Again(k, n), n, Resent(k.sent + 1)))
  {
    hide Shape, Ancestry, PendingOk, ChannelsOk, NetworkOk, ChainOk;
    hide LogOk, RecoveryOk, AnswersOk, IdsApart, RetryOk, WireId;
    ResendKeepsChain(k, n, k.core.streamId);
    assert AllButChainOk(SetRetry(Again(k, n), n, Resent(k.sent + 1))) by {
      RetryOkAt(k, n);
      ResendKeepsAncestry(k, n, k.core.streamId);
      BeginKeepsMost(k, k.calls[n].root, k.calls[n].retries + 1,
                     OnNewStream(k.calls[n].request, k.core.streamId), RetryOf(n));
      ResentIsOk(k, n);
      ResendMoves(Again(k, n), n);
    }
  }

  lemma ResendMoves(mid: Conn, n: nat)
    requires AllButChainOk(mid) && n in mid.retries && n in mid.calls && mid.retries[n].Ready?
    requires RetryOk(SetRetry(mid, n, Resent(mid.sent)), n)
    ensures AllButChainOk(SetRetry(mid, n, Resent(mid.sent)))
  {
    var k' := SetRetry(mid, n, Resent(mid.sent));
    assert k' == Move(mid, n, Resent(mid.sent), mid.core.recovering, mid.core.streamId);
    hide Shape, Ancestry, PendingOk, ChannelsOk, NetworkOk, LogOk, RecoveryOk, AnswersOk, IdsApart, RetryOk, WireId;
    MoveKeepsShape(mid, n, Resent(mid.sent), mid.core.recovering, mid.core.streamId);
    AncestryKept(mid, k');
    MoveKeepsChannels(mid, n, Resent(mid.sent), mid.core.recovering, mid.core.streamId);
    MessagesKept(mid, k');
    MoveKeepsAnswers(mid, n, Resent(mid.sent), mid.core.recovering, mid.core.streamId);
    MoveKeepsRecovery(mid, n, Resent(mid.sent), mid.core.recovering, mid.core.streamId);
    IdsKept(mid, k');
  }

  // The actions of a retry goroutine, one program counter at a time.

  lemma StartedMoveIsOk(k: Conn, n: nat)
    requires RecoveryOk(k) && n in k.retries && n in k.calls && k.retries[n].Started?
    ensures var k' := Advances(k, n); n in k'.retries && n in k'.calls && RetryOk(k', n)
  {
    assert RetryOk(k, n);
    if k.core.recovering.Some? { RetryOkAt(k, k.core.recovering.value); }
  }

  lemma FollowingMoveIsOk(k: Conn, n: nat)
    requires RecoveryOk(k) && n in k.retries && n in k.calls && k.retries[n].Following?
    ensures RetryOk(Move(k, n, Ready, k.core.recovering, k.core.streamId), n)
  {
    assert RetryOk(k, n);
  }

  lemma LeaderMoveIsOk(k: Conn, n: nat, r: Retry, origin: Origin)
    requires Shape(k) && RecoveryOk(k) && n in k.retries && n in k.calls && n < k.sent && Leads(k.retries[n])
    requires k.sent in k.calls && k.calls[k.sent].origin == origin
    requires (r == Closing(k.sent) && origin == CloseFor(n)) || (r == Opening(k.sent) && origin == OpenFor(n))
    ensures RetryOk(Move(k, n, r, k.core.recovering, k.core.streamId), n)
  {
    assert RetryOk(k, n);
  }

  lemma LeaderEndIsOk(k: Conn, n: nat, r: Retry, id: int32)
    requires RecoveryOk(k) && n in k.retries && n in k.calls && Leads(k.retries[n]) && (r.Ready? || r.GivingUp?)
    ensures n in Move(k, n, r, None, id).retries && RetryOk(Move(k, n, r, None, id), n) && k.core.recovering == Some(n)
  {
    assert RetryOk(k, n);
  }

  lemma SetRetryIsMove(k: Conn, n: nat, r: Retry)
    ensures SetRetry(k, n, r) == Move(k, n, r, k.core.recovering, k.core.streamId)
  {
  }

  /** A new call is the last one, and the goroutines stand where they stood. */
  lemma BeginAdds(k: Conn, root: nat, retries: nat, request: Request, origin: Origin)
    requires Shape(k)
    ensures var mid := Begin(k, root, retries, request, origin);
      && mid.sent == k.sent + 1 && mid.sent in mid.calls && mid.calls[mid.sent].origin == origin
      && mid.retries == k.retries
      && forall n :: n in k.calls ==> n in mid.calls && n <= k.sent
  {
    hide WireId, Register;
  }

  /** The leader of a recovery sends its next request. */
  lemma LeaderKeeps(k: Conn, n: nat, request: Request, r: Retry, origin: Origin)
    requires Inv(k) && MayBegin(k) && n in k.retries && n in k.calls && Leads(k.retries[n])
    requires !request.OnStream?
    requires (r == Closing(k.sent + 1) && origin == CloseFor(n)) || (r == Opening(k.sent + 1) && origin == OpenFor(n))
    ensures Inv(SetRetry(Begin(k, k.sent + 1, 0, request, origin), n, r))
  {
    hide Shape, Ancestry, PendingOk, ChannelsOk, NetworkOk, ChainOk, LogOk, RecoveryOk, AnswersOk, IdsApart, RetryOk;
    hide Begin, Move, SetRetry;
    var mid := Begin(k, k.sent + 1, 0, request, origin);
    BeginAdds(k, k.sent + 1, 0, request, origin);
    BeginKeeps(k, request, origin);
    LeaderMoveIsOk(mid, n, r, origin);
    MoveKeeps(mid, n, r, mid.core.recovering, mid.core.streamId);
    SetRetryIsMove(mid, n, r);
  }

  /** What the goroutine answers is what its last call returned, or why it gave up. */
  lemma AnswerIsOk(k: Conn, n: nat)
    requires Shape(k) && Ancestry(k) && RecoveryOk(k) && AnswersOk(k) && n in k.retries && n in k.calls
    ensures k.retries[n].Resent? ==>
              var c := k.retries[n].call;
              c in k.calls && (k.calls[c].stage.Returned? ==> ResultOk(k, n, k.calls[c].stage.result))
    ensures k.retries[n].GivingUp? ==> ResultOk(k, n, Failed(k.retries[n].reason))
  {
    assert RetryOk(k, n);
    if k.retries[n].Resent? {
      assert OriginOk(k, k.retries[n].call);
      assert CallAnswerOk(k, k.retries[n].call);
    }
  }

  lemma OpeningKeeps(k: Conn, n: nat)
    requires Inv(k) && n in k.retries && n in k.calls && k.retries[n].Opening? && Advances(k, n) != k
    ensures Inv(Advances(k, n))
  {
    hide Shape, Ancestry, PendingOk, ChannelsOk, NetworkOk, ChainOk, LogOk, RecoveryOk, AnswersOk, IdsApart, RetryOk;
    var k' := Advances(k, n);
    assert k' == Move(k, n, k'.retries[n], None, k'.core.streamId);
    LeaderEndIsOk(k, n, k'.retries[n], k'.core.streamId);
    MoveKeeps(k, n, k'.retries[n], None, k'.core.streamId);
  }

  lemma StartedKeeps(k: Conn, n: nat)
    requires Inv(k) && n in k.retries && n in k.calls && k.retries[n].Started?
    ensures Inv(Advances(k, n))
  {
    hide Shape, Ancestry, PendingOk, ChannelsOk, NetworkOk, ChainOk, LogOk, RecoveryOk, AnswersOk, IdsApart, RetryOk;
    StartedMoveIsOk(k, n);
    var k' := Advances(k, n);
    assert k' == Move(k, n, k'.retries[n], k'.core.recovering, k.core.streamId);
    MoveKeeps(k, n, k'.retries[n], k'.core.recovering, k.core.streamId);
  }

  lemma AdvanceKeeps(k: Conn, n: nat)
    requires Inv(k) && n in k.retries && n in k.calls && (Advances(k, n).sent > k.sent ==> MayBegin(k))
    ensures Inv(Advances(k, n))
  {
    hide Shape, Ancestry, PendingOk, ChannelsOk, NetworkOk, ChainOk;
    hide LogOk, RecoveryOk, AnswersOk, IdsApart, RetryOk, ResultOk;
    hide Register;
    var core := k.core;
    match k.retries[n] {
      case Started => StartedKeeps(k, n);
      case Following(leader) =>
        FollowingMoveIsOk(k, n);
        assert Move(k, n, Ready, core.recovering, core.streamId) == SetRetry(k, n, Ready);
        MoveKeeps(k, n, Ready, core.recovering, core.streamId);
      case Leading =>
        LeaderKeeps(k, n, CloseStream(core.streamId), Closing(k.sent + 1), CloseFor(n));
      case Closing(c) =>
        if Advances(k, n) != k {
          LeaderKeeps(k, n, OpenStreamAssigned, Opening(k.sent + 1), OpenFor(n));
        }
      case Opening(c) => if Advances(k, n) != k { OpeningKeeps(k, n); }
      case Ready => ResendKeeps(k, n);
      case Resent(c) =>
        if Advances(k, n) != k {
          AnswerIsOk(k, n);
          AnswerKeeps(k, n, k.calls[c].stage.result, true);
        }
      case GivingUp(reason) =>
        AnswerIsOk(k, n);
        AnswerKeeps(k, n, Failed(reason), false);
      case Answered(_) =>
    }
  }

  lemma DeliversKeeps(k: Conn, m: ResponseMsg)
    requires Inv(k) && m in k.responses
    ensures Inv(Delivers(k, m))
  {
    hide Shape, Ancestry, PendingOk, ChannelsOk, NetworkOk, ChainOk, LogOk, RecoveryOk, AnswersOk, IdsApart;
    match m.response {
      case Success(id) => SettlesKeeps(k, m, Data(id));
      case Failure => SettlesKeeps(k, m, Failed(Rejected));
      case SupersededFailure =>
        if m.id in k.core.pending { RestartsKeeps(k, m); } else { LossKeeps(k, Delivers(k, m)); }
    }
  }

  lemma WriteFailsKeeps(k: Conn, n: nat, leaked: bool)
    requires Inv(k) && n in k.calls && k.calls[n].stage.Registered?
    ensures Inv(GivesUp(if leaked then Writes(k, n) else k, n, SendFailed))
  {
    hide Shape, Ancestry, PendingOk, ChannelsOk, NetworkOk, ChainOk, LogOk, RecoveryOk, AnswersOk, IdsApart;
    if leaked {
      WritesKeeps(k, n);
      GivesUpKeeps(Writes(k, n), n, SendFailed);
    } else {
      GivesUpKeeps(k, n, SendFailed);
    }
  }

  /** A step that starts a call takes an id that is not in use, or none. */
  ghost predicate TakesFreeId(generation: nat, k: Conn, step: Step) {
    Next(generation, k, step).sent > k.sent ==> MayBegin(k)
  }

  /** One step of a connection keeps the invariant. */
  lemma NextKeeps(generation: nat, k: Conn, step: Step)
    requires Inv(k) && StreamsOk(generation, k.streams) && TakesFreeId(generation, k, step)
    ensures Inv(Next(generation, k, step))
  {
    hide Shape, Ancestry, PendingOk, ChannelsOk, NetworkOk, ChainOk, LogOk, RecoveryOk, AnswersOk, IdsApart;
    hide StreamsOk, Delivers, Advances, Serves;
    NextCountsUp(generation, k, step);
    match step {
      case UserCalls(request) => BeginKeeps(k, request, User);
      case Write(n) => if Next(generation, k, step) != k { WritesKeeps(k, n); }
      case WriteFails(n, leaked) => if Next(generation, k, step) != k { WriteFailsKeeps(k, n, leaked); }
      case Receive(n) => if Next(generation, k, step) != k { ReceiveKeeps(k, n); }
      case Cancel(n) => if Next(generation, k, step) != k { GivesUpKeeps(k, n, Cancelled); }
      case Serve(m, env) => if Next(generation, k, step) != k { ServesKeeps(generation, k, m, env); }
      case Deliver(m) => if m in k.responses && !k.readEnded { DeliversKeeps(k, m); }
      case LoseRequest(m) => LossKeeps(k, Next(generation, k, step));
      case LoseResponse(m) => LossKeeps(k, Next(generation, k, step));
      case ReadEnds => if !k.readEnded { DrainKeeps(k); }
      case SessionEnds => ClosingKeeps(k, k.core.closed, map[]);
      case CloseConn => ClosingKeeps(k, true, k.streams);
      case Advance(n) => if n in k.retries && n in k.calls { AdvanceKeeps(k, n); }
    }
  }

  lemma NextCountsUp(generation: nat, k: Conn, step: Step)
    ensures k.sent <= Next(generation, k, step).sent
  {
    hide Handle, WireId, Register, Dispatch, Forget, Drain, Send, Sent, Supersede;
  }

  /** One step of a connection keeps every stream superseded exactly when its generation is over. */
  lemma NextKeepsStreams(generation: nat, k: Conn, step: Step)
    requires StreamsOk(generation, k.streams)
    ensures StreamsOk(generation, Next(generation, k, step).streams)
  {
    if step.Serve? {
      HandleKeepsStreams(generation, k.streams, step.asked.request, step.env);
    }
    hide Handle, StreamsOk;
  }

  /** The steps of the application, the read loop and the goroutines. */
  lemma ClientStepIs(generation: nat, k: Conn, step: Step)
    ensures step.UserCalls? ==> Next(generation, k, step) == Begin(k, k.sent + 1, 0, step.request, User)
    ensures step.Deliver? ==>
      Next(generation, k, step) == if step.answer in k.responses && !k.readEnded then Delivers(k, step.answer) else k
    ensures step.Advance? ==>
      Next(generation, k, step) == if step.call in k.retries && step.call in k.calls then Advances(k, step.call) else k
    ensures step.ReadEnds? ==>
      Next(generation, k, step) == if k.readEnded then k else k.(readEnded := true, core := Drain(k.core))
  {
    hide Begin, Delivers, Advances, Drain, Writes, GivesUp, SetStage, Serves;
  }

  /** The steps of the callers and the server. */
  lemma CallerStepIs(generation: nat, k: Conn, step: Step)
    ensures step.Write? ==>
      Next(generation, k, step) ==
        if step.call in k.calls && k.calls[step.call].stage.Registered? then Writes(k, step.call) else k
    ensures step.Receive? ==>
      Next(generation, k, step) ==
        if step.call in k.calls && k.calls[step.call].stage.Waiting? && Sent(k.core, step.call) != []
        then SetStage(k, step.call, Returned(Sent(k.core, step.call)[0])) else k
    ensures step.Serve? ==>
      Next(generation, k, step) ==
        if step.asked in k.requests && step.asked.call in k.calls then Serves(generation, k, step.asked, step.env) else k
    ensures step.Cancel? ==>
      Next(generation, k, step) ==
        if step.call in k.calls && k.calls[step.call].stage.Waiting? && Cancellable(k.calls[step.call].origin)
        then GivesUp(k, step.call, Cancelled) else k
    ensures step.WriteFails? ==>
      Next(generation, k, step) ==
        if step.call in k.calls && k.calls[step.call].stage.Registered?
        then GivesUp(if step.leaked then Writes(k, step.call) else k, step.call, SendFailed) else k
  {
    hide Begin, Delivers, Advances, Drain, Writes, GivesUp, SetStage, Serves, Sent;
  }
}
