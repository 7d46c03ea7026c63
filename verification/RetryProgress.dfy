/**
 Nobody who waits on a connection is stranded when its read loop has ended. Every step of
 the callers, the retry goroutines, the server and the read loop leaves less to do; the
 callers and goroutines can act as long as somebody waits; and when nobody can act any
 more, everyone has returned.
 */
module RetryProgress {
  import opened NativeTypes
  import opened WsStreams
  import opened RetryClient
  import opened RetryProtocol
  import opened RetryInvariants
  import opened RetrySteps
  import opened RetryTheorems

  /** A step the client takes by itself, with no word from the server, the network or the application. */
  predicate IsLocal(step: Step) {
    step.Write? || step.Receive? || step.Advance?
  }

  ghost predicate Idle(generation: nat, k: Conn) {
    forall step {:trigger Next(generation, k, step)} :: IsLocal(step) ==> Next(generation, k, step) == k
  }

  /** What a caller or a goroutine can do, by where it stands. */
  predicate CanAct(k: Conn, r: Retry) {
    match r
    case Following(leader) => k.core.recovering != Some(leader)
    case Closing(c) => c in k.calls && k.calls[c].stage.Returned?
    case Opening(c) => c in k.calls && k.calls[c].stage.Returned?
    case Resent(c) => c in k.calls && k.calls[c].stage.Returned?
    case Answered(_) => false
    case _ => true
  }

  lemma CallActs(generation: nat, k: Conn, n: nat)
    requires n in k.calls
    ensures k.calls[n].stage.Registered? ==> Next(generation, k, Write(n)) != k
    ensures k.calls[n].stage.Waiting? && Sent(k.core, n) != [] ==> Next(generation, k, Receive(n)) != k
  {
    assert Writes(k, n).calls[n].stage.Waiting?;
    if Sent(k.core, n) != [] {
      assert SetStage(k, n, Returned(Sent(k.core, n)[0])).calls[n].stage.Returned?;
    }
  }

  lemma RetryActs(generation: nat, k: Conn, n: nat)
    requires n in k.calls && n in k.retries && CanAct(k, k.retries[n])
    ensures Next(generation, k, Advance(n)) != k
  {
    assert Advances(k, n).retries[n] != k.retries[n];
  }

  /** Nobody who has written his request still waits for the read loop. */
  ghost predicate NoneAwaited(k: Conn) {
    forall n {:trigger Pending(k, n)} :: n in k.calls && Pending(k, n) ==> k.calls[n].stage.Registered?
  }

  /** A call that no goroutine retries has returned, for otherwise its caller could act. */
  lemma PlainCallReturned(generation: nat, k: Conn, n: nat)
    requires ChannelsOk(k) && NoneAwaited(k) && Idle(generation, k) && n in k.calls
    requires n !in k.retries || k.retries[n].Answered?
    ensures k.calls[n].stage.Returned?
  {
    assert ChannelOk(k, n);
    CallActs(generation, k, n);
    hide Next;
  }

  /** The leader of a recovery waits for nothing but its own calls, which are never retried. */
  lemma NobodyLeads(generation: nat, k: Conn, n: nat)
    requires Ancestry(k) && ChannelsOk(k) && RecoveryOk(k) && NoneAwaited(k) && Idle(generation, k) && n in k.retries
    ensures !Leads(k.retries[n])
  {
    RetryOkAt(k, n);
    if k.retries[n].Closing? || k.retries[n].Opening? {
      LeaderCallIsPlain(k, n, k.retries[n].call);
      PlainCallReturned(generation, k, k.retries[n].call);
    }
    hide Next;
    if CanAct(k, k.retries[n]) { RetryActs(generation, k, n); }
  }

  lemma LeaderCallIsPlain(k: Conn, n: nat, c: nat)
    requires Ancestry(k) && RecoveryOk(k) && c in k.calls
    requires k.calls[c].origin == CloseFor(n) || k.calls[c].origin == OpenFor(n)
    ensures c !in k.retries
  {
    assert OriginOk(k, c);
    if c in k.retries { RetryOkAt(k, c); }
  }

  lemma {:induction false} EverythingSettled(generation: nat, k: Conn, n: nat)
    requires Inv(k) && NoneAwaited(k) && Idle(generation, k) && n in k.calls
    ensures k.calls[n].stage.Returned? && (n in k.retries ==> k.retries[n].Answered?)
    decreases k.sent - n
  {
    hide Ancestry, PendingOk, ChannelsOk, NetworkOk, ChainOk, LogOk, RecoveryOk, AnswersOk, Next;
    if n in k.retries {
      RetryOkAt(k, n);
      NobodyLeads(generation, k, n);
      if k.retries[n].Following? && k.core.recovering == Some(k.retries[n].leader) {
        RetryOkAt(k, k.retries[n].leader);
        NobodyLeads(generation, k, k.retries[n].leader);
        assert false;
      } else if k.retries[n].Resent? {
        EverythingSettled(generation, k, k.retries[n].call);
      }
      if CanAct(k, k.retries[n]) {
        RetryActs(generation, k, n);
        assert false;
      }
    }
    PlainCallReturned(generation, k, n);
  }

  // ── The measure ──

  /** A step of the client, the server or the read loop that needs no word from the application and no accident. */
  predicate IsForward(step: Step) {
    IsLocal(step) || step.Serve? || step.Deliver?
  }

  function StageRank(stage: Stage): nat {
    match stage
    case Registered => 4
    case Waiting => 1
    case Returned(_) => 0
  }

  function RetriesLeft(retries: nat): nat {
    if retries < MAX_STREAM_RETRIES then MAX_STREAM_RETRIES - retries else 0
  }

  /** What a superseded answer to a call still sets off: a recovery of two calls, and the next attempt. */
  function RetryRank(r: Retry, left: nat): nat {
    match r
    case Started => 20 + 18 * left
    case Leading => 19 + 18 * left
    case Closing(_) => 14 + 18 * left
    case Opening(_) => 9 + 18 * left
    case Following(_) => 9 + 18 * left
    case Ready => 8 + 18 * left
    case Resent(_) => 1
    case GivingUp(_) => 1
    case Answered(_) => 0
  }

  /** What call n can still set off: what its caller has to do, and what its retry does or would do. */
  function Weight(k: Conn, n: nat): nat {
    if n !in k.calls then 0
    else
      var call := k.calls[n];
      StageRank(call.stage) +
      if n in k.retries then RetryRank(k.retries[n], RetriesLeft(call.retries))
      else if call.request.OnStream? then RetryRank(Started, RetriesLeft(call.retries))
      else 0
  }

  function WeightUpTo(k: Conn, n: nat): nat {
    if n == 0 then 0 else WeightUpTo(k, n - 1) + Weight(k, n)
  }

  /** A request in flight is yet to be served and answered, an answer is yet to be delivered. */
  function Traffic(k: Conn): nat {
    2 * |k.requests| + |k.responses|
  }

  /** The steps left to the callers, the goroutines, the server and the read loop of a connection. */
  function Remaining(k: Conn): nat {
    WeightUpTo(k, k.sent) + Traffic(k)
  }

  /** The weight of the call that k' has and k has not. */
  function NewWeight(k: Conn, k': Conn): nat {
    if k'.sent == k.sent then 0 else Weight(k', k'.sent)
  }

  /** k' has less left to do than k: no call but n has more, and n and the traffic make up for a new call. */
  ghost predicate Lighter(k: Conn, k': Conn, n: nat) {
    && 1 <= n <= k.sent <= k'.sent <= k.sent + 1
    && (forall i :: 1 <= i <= k.sent && i != n ==> Weight(k', i) <= Weight(k, i))
    && Weight(k', n) + NewWeight(k, k') + Traffic(k') < Weight(k, n) + Traffic(k)
  }

  lemma {:induction false} WeightsAddUp(k: Conn, k': Conn, at: nat, n: nat)
    requires 1 <= at <= n && forall i :: 1 <= i <= n && i != at ==> Weight(k', i) <= Weight(k, i)
    ensures WeightUpTo(k', n) + Weight(k, at) <= WeightUpTo(k, n) + Weight(k', at)
  {
    hide Weight;
    if at < n {
      WeightsAddUp(k, k', at, n - 1);
    } else {
      NoHeavier(k, k', n - 1);
    }
  }

  lemma {:induction false} NoHeavier(k: Conn, k': Conn, n: nat)
    requires forall i :: 1 <= i <= n ==> Weight(k', i) <= Weight(k, i)
    ensures WeightUpTo(k', n) <= WeightUpTo(k, n)
  {
    hide Weight;
    if n > 0 { NoHeavier(k, k', n - 1); }
  }

  lemma LighterIsLess(k: Conn, k': Conn, n: nat)
    requires Lighter(k, k', n)
    ensures Remaining(k') < Remaining(k)
  {
    hide Weight, Traffic;
    WeightsAddUp(k, k', n, k.sent);
  }

  /** A goroutine starts a call: one more request to register, write, serve and answer. */
  lemma BeginLightens(k: Conn, n: nat, r: Retry, root: nat, retries: nat, request: Request, origin: Origin)
    requires Shape(k) && n in k.retries
    requires var left := RetriesLeft(k.calls[n].retries);
      RetryRank(r, left) + 4 + (if request.OnStream? then RetryRank(Started, RetriesLeft(retries)) else 0)
        < RetryRank(k.retries[n], left)
    ensures Lighter(k, SetRetry(Begin(k, root, retries, request, origin), n, r), n)
  {
    hide WireId, Register, RetryRank, RetriesLeft;
    var k' := SetRetry(Begin(k, root, retries, request, origin), n, r);
    assert forall i :: 1 <= i <= k.sent && i != n ==> Weight(k', i) == Weight(k, i);
  }

  lemma MoveLightens(k: Conn, k': Conn, n: nat)
    requires Shape(k) && n in k.retries && k'.sent == k.sent && k'.calls == k.calls
    requires k'.requests == k.requests && k'.responses == k.responses
    requires n in k'.retries && k'.retries == k.retries[n := k'.retries[n]]
    requires var left := RetriesLeft(k.calls[n].retries);
             RetryRank(k'.retries[n], left) < RetryRank(k.retries[n], left)
    ensures Lighter(k, k', n)
  {
    hide WireId, RetryRank, RetriesLeft;
  }

  predicate AboutToCall(r: Retry) {
    r.Leading? || r.Closing? || r.Ready?
  }

  lemma CallingLightens(k: Conn, n: nat)
    requires Shape(k) && n in k.retries && n in k.calls && AboutToCall(k.retries[n]) && Advances(k, n) != k
    requires k.retries[n].Ready? ==> k.calls[n].retries < MAX_STREAM_RETRIES
    ensures Lighter(k, Advances(k, n), n)
  {
    hide WireId, Lighter, Begin, Shape;
    var call, id, c := k.calls[n], k.core.streamId, k.sent + 1;
    match k.retries[n] {
      case Leading => BeginLightens(k, n, Closing(c), c, 0, CloseStream(id), CloseFor(n));
      case Closing(_) => BeginLightens(k, n, Opening(c), c, 0, OpenStreamAssigned, OpenFor(n));
      case Ready =>
        BeginLightens(k, n, Resent(c), call.root, call.retries + 1, OnNewStream(call.request, id), RetryOf(n));
    }
  }

  lemma RecoveredLightens(k: Conn, n: nat)
    requires Shape(k) && n in k.retries && n in k.calls && k.retries[n].Opening? && Advances(k, n) != k
    ensures Lighter(k, Advances(k, n), n)
  {
    hide WireId, Lighter, Begin, Shape, Send, EndRecovery, RetriesLeft;
    var k' := Advances(k, n);
    assert n in k'.retries && k'.retries == k.retries[n := k'.retries[n]];
    MoveLightens(k, k', n);
  }

  lemma MovingLightens(k: Conn, n: nat)
    requires Shape(k) && n in k.retries && n in k.calls
    requires !AboutToCall(k.retries[n]) && !k.retries[n].Opening? && Advances(k, n) != k
    ensures Lighter(k, Advances(k, n), n)
  {
    hide WireId, Lighter, Begin, Shape, Send, JoinRecovery, RetriesLeft;
    var k' := Advances(k, n);
    assert n in k'.retries && k'.retries == k.retries[n := k'.retries[n]];
    MoveLightens(k, k', n);
  }

  lemma AdvanceLightens(k: Conn, n: nat)
    requires Shape(k) && RecoveryOk(k) && n in k.retries && n in k.calls && Advances(k, n) != k
    ensures Lighter(k, Advances(k, n), n)
  {
    RetryOkAt(k, n);
    assert k.retries[n].Ready? ==> k.calls[n].retries < MAX_STREAM_RETRIES;
    hide Advances, Lighter, Shape, RecoveryOk, RetryOk;
    if AboutToCall(k.retries[n]) { CallingLightens(k, n); }
    else if k.retries[n].Opening? { RecoveredLightens(k, n); }
    else { MovingLightens(k, n); }
  }

  lemma WriteLightens(k: Conn, n: nat)
    requires Shape(k) && n in k.calls && k.calls[n].stage.Registered?
    ensures Lighter(k, Writes(k, n), n)
  {
    hide WireId, RetryRank, RetriesLeft;
  }

  lemma ReceiveLightens(k: Conn, n: nat, result: Result)
    requires Shape(k) && n in k.calls && k.calls[n].stage.Waiting?
    ensures Lighter(k, SetStage(k, n, Returned(result)), n)
  {
    hide WireId, RetryRank, RetriesLeft;
  }

  /** Calls and retries stay, and a message is served or delivered. */
  lemma QuietLightens(k: Conn, k': Conn, n: nat)
    requires Shape(k) && n in k.calls && k'.sent == k.sent && k'.calls == k.calls && k'.retries == k.retries
    requires Traffic(k') < Traffic(k)
    ensures Lighter(k, k', n)
  {
    hide WireId, Traffic, RetryRank, RetriesLeft;
  }

  lemma ServeLightens(generation: nat, k: Conn, m: RequestMsg, env: Env)
    requires Shape(k) && m in k.requests && m.call in k.calls
    ensures Lighter(k, Serves(generation, k, m, env), m.call)
  {
    hide WireId, Handle, Shape;
    QuietLightens(k, Serves(generation, k, m, env), m.call);
  }

  lemma SettleLightens(k: Conn, m: ResponseMsg, core: Core, n: nat)
    requires Shape(k) && m in k.responses && n in k.calls
    ensures Lighter(k, k.(responses := k.responses - multiset{m}, core := core), n)
  {
    hide WireId, Shape;
    QuietLightens(k, k.(responses := k.responses - multiset{m}, core := core), n);
  }

  /** A superseded answer starts what was counted with its call from the beginning. */
  lemma RestartLightens(k: Conn, m: ResponseMsg)
    requires Shape(k) && m in k.responses && m.id in k.core.pending && k.core.pending[m.id].chan == m.call
    requires m.call in k.calls && m.call !in k.retries && k.calls[m.call].request.OnStream?
    ensures Lighter(k, Restarts(k, m), m.call)
  {
    hide WireId, RetryRank, RetriesLeft;
  }

  lemma DeliverLightens(k: Conn, m: ResponseMsg)
    requires Inv(k) && m in k.responses
    ensures Lighter(k, Delivers(k, m), m.call)
  {
    assert ResponseOk(k, m);
    if m.id in k.core.pending { RestartsTakesItsCall(k, m); }
    hide WireId, Dispatch, Forget, Restarts, Lighter;
    hide Shape, Ancestry, PendingOk, ChannelsOk, NetworkOk, ChainOk, LogOk, RecoveryOk, AnswersOk, IdsApart;
    if m.response.SupersededFailure? && m.id in k.core.pending {
      RestartLightens(k, m);
    } else {
      SettleLightens(k, m, Delivers(k, m).core, m.call);
    }
  }

  /** For which call a step acts. */
  function Subject(step: Step): nat
    requires IsForward(step)
  {
    match step
    case Write(n) => n
    case Receive(n) => n
    case Advance(n) => n
    case Serve(m, _) => m.call
    case Deliver(m) => m.call
  }

  lemma ForwardLightens(generation: nat, k: Conn, step: Step)
    requires Inv(k) && IsForward(step) && Next(generation, k, step) != k
    ensures Lighter(k, Next(generation, k, step), Subject(step))
  {
    hide Lighter, WireId, Advances, Serves, Delivers, Writes, SetStage;
    hide Shape, Ancestry, PendingOk, ChannelsOk, NetworkOk, ChainOk, LogOk, RecoveryOk, AnswersOk, IdsApart;
    match step {
      case Write(n) => WriteLightens(k, n);
      case Receive(n) => ReceiveLightens(k, n, Sent(k.core, n)[0]);
      case Advance(n) => AdvanceLightens(k, n);
      case Serve(m, env) => ServeLightens(generation, k, m, env);
      case Deliver(m) => DeliverLightens(k, m);
    }
  }

  /** Every forward step that does anything leaves less to do. */
  lemma RemainingFalls(generation: nat, k: Conn, step: Step)
    requires Inv(k) && IsForward(step) && Next(generation, k, step) != k
    ensures Remaining(Next(generation, k, step)) < Remaining(k)
  {
    ForwardLightens(generation, k, step);
    LighterIsLess(k, Next(generation, k, step), Subject(step));
  }

  /**
   Once the read loop has ended, the callers and goroutines need neither server nor
   network: every local step leaves less to do, and where none is possible every call
   has returned and every retry goroutine has answered.
   */
  lemma NobodyIsStranded(events: seq<Event>, c: nat, k: Conn, generation: nat)
    requires Reached(events, c, k) && k.readEnded
    ensures forall step {:trigger IsLocal(step)} ::
              IsLocal(step) && Next(generation, k, step) != k ==>
                Remaining(Next(generation, k, step)) < Remaining(k) && Ended(Next(generation, k, step))
    ensures Idle(generation, k) ==>
              && (forall n :: n in k.calls ==> k.calls[n].stage.Returned?)
              && (forall n :: n in k.retries ==> k.retries[n].Answered?)
  {
    ReachedIsOk(events, c, k);
    hide Reached, Next, Remaining;
    assert Ended(k) && NoneAwaited(k);
    forall step | IsLocal(step) && Next(generation, k, step) != k
      ensures Remaining(Next(generation, k, step)) < Remaining(k) && Ended(Next(generation, k, step))
    {
      RemainingFalls(generation, k, step);
      EndStays(generation, k, step);
    }
    if Idle(generation, k) { EverybodyReturned(generation, k); }
  }

  lemma EverybodyReturned(generation: nat, k: Conn)
    requires Inv(k) && NoneAwaited(k) && Idle(generation, k)
    ensures forall n :: n in k.calls ==> k.calls[n].stage.Returned?
    ensures forall n :: n in k.retries ==> k.retries[n].Answered?
  {
    hide Next, ChannelsOk, NetworkOk, ChainOk, LogOk, RecoveryOk, AnswersOk, IdsApart, NoneAwaited, Idle;
    forall n | n in k.calls
      ensures k.calls[n].stage.Returned? && (n in k.retries ==> k.retries[n].Answered?)
    {
      EverythingSettled(generation, k, n);
    }
  }
}
