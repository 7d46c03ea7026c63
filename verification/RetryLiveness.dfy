/**
 Nothing is left unanswered by a network that delivers: as long as no message is lost, the
 steps of callers, goroutines, server and read loop run out, however many requests are
 outstanding and however often the database is swapped, and when they have run out every
 call has returned.
 */
module RetryLiveness {
  import opened NativeTypes
  import opened WsStreams
  import opened RetryClient
  import opened RetryProtocol
  import opened RetryInvariants
  import opened RetrySteps
  import opened RetryTheorems
  import opened RetryProgress

  /** No caller, goroutine, server or read loop can do anything. */
  ghost predicate AtRest(generation: nat, k: Conn) {
    forall step {:trigger Next(generation, k, step)} :: IsForward(step) ==> Next(generation, k, step) == k
  }

  // ── Nothing lost ──

  predicate Loses(step: Step) {
    step.LoseRequest? || step.LoseResponse?
  }

  predicate Lossless(events: seq<Event>, c: nat) {
    forall e :: e in events && e.Steps? && e.conn == c ==> !Loses(e.step)
  }

  /** Call n is waited for by a caller who has written his request. */
  ghost predicate Waits(k: Conn, n: nat) {
    n in k.calls && Pending(k, n) && k.calls[n].stage.Waiting?
  }

  /** A caller who waits for the read loop has a message on its way. */
  ghost predicate OnItsWay(k: Conn) {
    forall n: nat {:trigger Waits(k, n)} :: Waits(k, n) ==> InFlight(k, n)
  }

  /** What a step must leave of waiters and messages for nobody's message to be lost. */
  ghost predicate KeepsWay(k: Conn, k': Conn) {
    forall n: nat {:trigger Waits(k', n)} ::
      Waits(k', n) ==> InFlight(k', n) || (Waits(k, n) && !InFlight(k, n))
  }

  lemma WayKept(k: Conn, k': Conn)
    requires OnItsWay(k) && KeepsWay(k, k')
    ensures OnItsWay(k')
  {
    hide Waits, InFlight;
  }

  /** Steps that leave the messages alone and add nobody who waits. */
  lemma QuietKeepsWay(k: Conn, k': Conn)
    requires k'.requests == k.requests && k'.responses == k.responses
    requires forall n :: Waits(k', n) ==> Waits(k, n)
    ensures KeepsWay(k, k')
  {
    hide Waits;
  }

  lemma BeginKeepsWay(k: Conn, root: nat, retries: nat, request: Request, origin: Origin)
    requires Shape(k)
    ensures KeepsWay(k, Begin(k, root, retries, request, origin))
  {
    hide WireId;
    QuietKeepsWay(k, Begin(k, root, retries, request, origin));
  }

  lemma WriteKeepsWay(k: Conn, n: nat)
    requires n in k.calls
    ensures KeepsWay(k, Writes(k, n))
  {
    hide WireId;
    var k' := Writes(k, n);
    assert RequestMsg(WireId(n), k.calls[n].request, n) in k'.requests;
    forall i: nat | Waits(k', i) ensures InFlight(k', i) || (Waits(k, i) && !InFlight(k, i)) {
      if m :| m in k.requests && m.call == i { assert m in k'.requests; }
    }
  }

  lemma GivesUpKeepsWay(k: Conn, n: nat, reason: Reason)
    requires n in k.calls
    ensures KeepsWay(k, GivesUp(k, n, reason))
  {
    hide WireId;
    QuietKeepsWay(k, GivesUp(k, n, reason));
  }

  lemma FailedWriteKeepsWay(k: Conn, n: nat)
    requires n in k.calls
    ensures KeepsWay(k, GivesUp(Writes(k, n), n, SendFailed))
  {
    hide WireId;
    var k' := GivesUp(Writes(k, n), n, SendFailed);
    forall i: nat | Waits(k', i) ensures InFlight(k', i) || (Waits(k, i) && !InFlight(k, i)) {
      if m :| m in k.requests && m.call == i { assert m in k'.requests; }
    }
  }

  lemma ReceiveKeepsWay(k: Conn, n: nat, result: Result)
    requires n in k.calls
    ensures KeepsWay(k, SetStage(k, n, Returned(result)))
  {
    hide WireId;
    QuietKeepsWay(k, SetStage(k, n, Returned(result)));
  }

  lemma ServeKeepsWay(generation: nat, k: Conn, m: RequestMsg, env: Env)
    requires m in k.requests && m.call in k.calls
    ensures KeepsWay(k, Serves(generation, k, m, env))
  {
    hide WireId, Handle, Waits;
    var k' := Serves(generation, k, m, env);
    var answer := ResponseMsg(m.id, Handle(generation, k.streams, m.request, env).response, m.call);
    assert answer in k'.responses;
    forall n: nat | InFlight(k, n) ensures InFlight(k', n) {
      if q :| q in k.requests && q.call == n && q != m {
        assert q in k'.requests;
      } else if n != m.call {
        var r :| r in k.responses && r.call == n;
        assert r in k'.responses;
      }
    }
    assert forall n :: Waits(k', n) ==> Waits(k, n) by { ServeAddsNoWaiter(generation, k, m, env); }
  }

  lemma ServeAddsNoWaiter(generation: nat, k: Conn, m: RequestMsg, env: Env)
    requires m in k.requests && m.call in k.calls
    ensures forall n :: Waits(Serves(generation, k, m, env), n) ==> Waits(k, n)
  {
    hide WireId, Handle;
  }

  /** A delivered answer leaves all other messages in flight. */
  lemma DeliveryLeavesOthers(k: Conn, k': Conn, m: ResponseMsg, n: nat)
    requires k'.requests == k.requests && k'.responses == k.responses - multiset{m}
    requires InFlight(k, n) && n != m.call
    ensures InFlight(k', n)
  {
    if q :| q in k.requests && q.call == n {
      assert q in k'.requests;
    } else {
      var r :| r in k.responses && r.call == n;
      assert r in k'.responses;
    }
  }

  /** Nobody but the waiter of `id` is gone, if there was one. */
  ghost predicate WaiterTaken(c: Core, c': Core, id: int32) {
    forall i :: i in c'.pending ==> i != id && i in c.pending && c'.pending[i] == c.pending[i]
  }

  lemma DispatchTakes(c: Core, id: int32, result: Result)
    ensures WaiterTaken(c, Dispatch(c, id, result), id)
  {
  }

  lemma ForgetTakes(c: Core, id: int32)
    ensures WaiterTaken(c, Forget(c, id), id)
  {
  }

  lemma DeliveryTakesTheWaiter(k: Conn, m: ResponseMsg)
    requires m in k.responses
    ensures var k' := Delivers(k, m);
      && k'.requests == k.requests && k'.responses == k.responses - multiset{m}
      && k'.calls == k.calls && WaiterTaken(k.core, k'.core, m.id)
  {
    match m.response
    case Success(id) => DispatchTakes(k.core, m.id, Data(id)); hide Dispatch, Forget, WaiterTaken;
    case Failure => DispatchTakes(k.core, m.id, Failed(Rejected)); hide Dispatch, Forget, WaiterTaken;
    case SupersededFailure =>
      if m.id in k.core.pending { ForgetTakes(k.core, m.id); }
  }

  /** Whoever an answer was for no longer waits once it is delivered. */
  lemma DeliveryEndsTheWait(k: Conn, m: ResponseMsg)
    requires m in k.responses && m.id == WireId(m.call)
    ensures !Waits(Delivers(k, m), m.call) && forall n :: Waits(Delivers(k, m), n) ==> Waits(k, n)
  {
    hide WireId, Delivers;
    DeliveryTakesTheWaiter(k, m);
  }

  lemma DeliverKeepsWay(k: Conn, m: ResponseMsg)
    requires Inv(k) && m in k.responses
    ensures KeepsWay(k, Delivers(k, m))
  {
    assert ResponseOk(k, m);
    hide Inv, Waits, InFlight, Delivers, WireId;
    var k' := Delivers(k, m);
    DeliveryTakesTheWaiter(k, m);
    DeliveryEndsTheWait(k, m);
    forall n: nat | InFlight(k, n) && n != m.call ensures InFlight(k', n) { DeliveryLeavesOthers(k, k', m, n); }
  }

  lemma MoveKeepsWay(k: Conn, k': Conn)
    requires k'.requests == k.requests && k'.responses == k.responses && k'.calls == k.calls
    requires k'.core.pending == k.core.pending || k'.core.pending == map[]
    ensures KeepsWay(k, k')
  {
    hide WireId;
    QuietKeepsWay(k, k');
  }

  lemma AdvanceKeepsWay(k: Conn, n: nat)
    requires Shape(k) && n in k.retries && n in k.calls
    ensures KeepsWay(k, Advances(k, n))
  {
    hide WireId, KeepsWay, Begin, Shape;
    var call, id, c := k.calls[n], k.core.streamId, k.sent + 1;
    match k.retries[n] {
      case Leading => CallKeepsWay(k, n, Closing(c), c, 0, CloseStream(id), CloseFor(n));
      case Closing(_) =>
        MoveKeepsWay(k, k);
        CallKeepsWay(k, n, Opening(c), c, 0, OpenStreamAssigned, OpenFor(n));
      case Ready => CallKeepsWay(k, n, Resent(c), call.root, call.retries + 1, OnNewStream(call.request, id), RetryOf(n));
      case _ => MoveKeepsWay(k, Advances(k, n));
    }
  }

  lemma CallKeepsWay(k: Conn, n: nat, r: Retry, root: nat, retries: nat, request: Request, origin: Origin)
    requires Shape(k)
    ensures KeepsWay(k, SetRetry(Begin(k, root, retries, request, origin), n, r))
  {
    hide Begin, InFlight;
    var k' := Begin(k, root, retries, request, origin);
    BeginKeepsWay(k, root, retries, request, origin);
    SameWay(k', SetRetry(k', n, r));
    forall i: nat | Waits(SetRetry(k', n, r), i)
      ensures InFlight(SetRetry(k', n, r), i) || (Waits(k, i) && !InFlight(k, i))
    {
      assert Waits(k', i);
    }
  }

  lemma SameWay(k: Conn, k': Conn)
    requires k'.requests == k.requests && k'.responses == k.responses
    ensures forall n: nat :: InFlight(k, n) == InFlight(k', n)
  {
  }

  lemma CallerKeepsWay(generation: nat, k: Conn, step: Step)
    requires Shape(k) && (step.Write? || step.WriteFails? || step.Receive? || step.Cancel?)
    ensures Next(generation, k, step) == k || KeepsWay(k, Next(generation, k, step))
  {
    hide Next, Shape, KeepsWay, Writes, GivesUp, SetStage, Sent;
    CallerStepIs(generation, k, step);
    if Next(generation, k, step) != k {
      match step {
        case Write(n) => WriteKeepsWay(k, n);
        case WriteFails(n, leaked) =>
          if leaked { FailedWriteKeepsWay(k, n); } else { GivesUpKeepsWay(k, n, SendFailed); }
        case Receive(n) => ReceiveKeepsWay(k, n, Sent(k.core, n)[0]);
        case Cancel(n) => GivesUpKeepsWay(k, n, Cancelled);
      }
    }
  }

  lemma ClientKeepsWay(generation: nat, k: Conn, step: Step)
    requires Inv(k) && (step.UserCalls? || step.Deliver? || step.Advance? || step.ReadEnds?)
    ensures Next(generation, k, step) == k || KeepsWay(k, Next(generation, k, step))
  {
    assert Shape(k);
    hide Next, Inv, Shape, KeepsWay, Begin, Delivers, Advances, Drain;
    ClientStepIs(generation, k, step);
    if Next(generation, k, step) != k {
      match step {
        case UserCalls(request) => BeginKeepsWay(k, k.sent + 1, 0, request, User);
        case Deliver(m) => DeliverKeepsWay(k, m);
        case Advance(n) => AdvanceKeepsWay(k, n);
        case ReadEnds =>
          assert Drain(k.core).pending == map[];
          MoveKeepsWay(k, Next(generation, k, step));
      }
    }
  }

  lemma OutsideKeepsWay(generation: nat, k: Conn, step: Step)
    requires step.Serve? || step.SessionEnds? || step.CloseConn?
    ensures Next(generation, k, step) == k || KeepsWay(k, Next(generation, k, step))
  {
    match step {
      case Serve(m, env) =>
        hide Next, KeepsWay, Serves;
        CallerStepIs(generation, k, step);
        if Next(generation, k, step) != k { ServeKeepsWay(generation, k, m, env); }
      case _ =>
        MoveKeepsWay(k, Next(generation, k, step));
        hide KeepsWay;
    }
  }

  /** Every step but a loss leaves a message on its way to whoever waits. */
  lemma NextKeepsWay(generation: nat, k: Conn, step: Step)
    requires Inv(k) && OnItsWay(k) && !Loses(step)
    ensures OnItsWay(Next(generation, k, step))
  {
    assert Shape(k);
    hide Next, Inv, Shape, KeepsWay, OnItsWay;
    if step.UserCalls? || step.Deliver? || step.Advance? || step.ReadEnds? {
      ClientKeepsWay(generation, k, step);
    } else if step.Serve? || step.SessionEnds? || step.CloseConn? {
      OutsideKeepsWay(generation, k, step);
    } else {
      CallerKeepsWay(generation, k, step);
    }
    if Next(generation, k, step) != k { WayKept(k, Next(generation, k, step)); }
  }

  lemma SnocOf(events: seq<Event>, more: seq<Event>)
    requires more != []
    ensures var init, last := more[..|more| - 1], more[|more| - 1];
      && (events + more)[..|events + more| - 1] == events + init
      && (events + more)[|events + more| - 1] == last
      && After(events + more) == React(After(events + init), last)
  {
    hide React;
    var init := more[..|more| - 1];
    assert (events + more)[..|events + more| - 1] == events + init;
  }

  /** Messages stay on their way in every continuation that loses none. */
  lemma {:induction false} WayStays(events: seq<Event>, more: seq<Event>, c: nat)
    requires FreeIds(events + more, c) && Lossless(more, c)
    requires c in After(events).conns ==> OnItsWay(After(events).conns[c])
    ensures c in After(events + more).conns ==> OnItsWay(After(events + more).conns[c])
  {
    hide After, React, OnItsWay, Inv, TakesFreeId, Next;
    if more == [] {
      assert events + more == events;
    } else {
      var init, last := more[..|more| - 1], more[|more| - 1];
      SnocOf(events, more);
      WayStays(events, init, c);
      InvAfter(events + init, c);
      EventKeepsWay(After(events + init), last, c);
    }
  }

  lemma EventKeepsWay(s: System, e: Event, c: nat)
    requires e.Steps? && e.conn == c ==> !Loses(e.step)
    requires c in s.conns ==> Inv(s.conns[c]) && OnItsWay(s.conns[c])
    ensures c in React(s, e).conns ==> OnItsWay(React(s, e).conns[c])
  {
    hide OnItsWay, Inv, Next, Supersede;
    if c in s.conns {
      match e
      case Connects(_) =>
      case Steps(d, step) => if d == c { NextKeepsWay(s.generation, s.conns[c], step); }
      case Evolves => SwapKeepsWay(s.conns[c], Supersede(s.conns[c].streams, s.generation + 1));
    } else {
      NobodyWaitsYet();
    }
  }

  lemma SwapKeepsWay(k: Conn, streams: Streams)
    requires OnItsWay(k)
    ensures OnItsWay(k.(streams := streams))
  {
    hide WireId;
    MoveKeepsWay(k, k.(streams := streams));
    WayKept(k, k.(streams := streams));
  }

  lemma NobodyWaitsYet()
    ensures OnItsWay(NEW_CONN)
  {
  }

  // ── Rest ──

  lemma ServeActs(generation: nat, k: Conn, m: RequestMsg, env: Env)
    requires m in k.requests && m.call in k.calls
    ensures Next(generation, k, Serve(m, env)) != k
  {
    hide Handle;
    assert Serves(generation, k, m, env).requests[m] < k.requests[m];
  }

  lemma DeliverActs(generation: nat, k: Conn, m: ResponseMsg)
    requires m in k.responses && !k.readEnded
    ensures Next(generation, k, Deliver(m)) != k
  {
    DeliveryTakesTheWaiter(k, m);
    assert Delivers(k, m).responses[m] < k.responses[m];
    hide Delivers;
  }

  lemma NothingInFlight(generation: nat, k: Conn)
    requires NetworkOk(k) && AtRest(generation, k) && !k.readEnded
    ensures k.requests == multiset{} && k.responses == multiset{}
  {
    hide WireId, Next;
    if m :| m in k.requests {
      assert RequestOk(k, m);
      ServeActs(generation, k, m, Env(true, [], true));
      assert false;
    }
    if r :| r in k.responses {
      DeliverActs(generation, k, r);
      assert false;
    }
  }

  lemma RestMeansNoneAwaited(generation: nat, k: Conn)
    requires Inv(k) && EndOk(k) && OnItsWay(k) && AtRest(generation, k)
    ensures NoneAwaited(k)
  {
    assert PendingOk(k) && NetworkOk(k);
    hide AtRest, Inv, NetworkOk, WireId, Next;
    if !k.readEnded { NothingInFlight(generation, k); }
    forall n | n in k.calls && Pending(k, n) ensures k.calls[n].stage.Registered? {
      assert !Waits(k, n);
    }
  }

  // ── A continuation of the run ──

  /** In the continuation nobody asks for anything new on connection c, and nothing goes wrong there. */
  predicate OnlyForward(more: seq<Event>, c: nat) {
    forall e :: e in more && e.Steps? && e.conn == c ==> IsForward(e.step)
  }

  /** The event does something on connection c. */
  predicate Acts(s: System, e: Event, c: nat) {
    e.Steps? && e.conn == c && c in s.conns && Next(s.generation, s.conns[c], e.step) != s.conns[c]
  }

  /** How many steps of the continuation do something on connection c. */
  function StepsTaken(events: seq<Event>, more: seq<Event>, c: nat): nat {
    if more == [] then 0
    else
      var init, last := more[..|more| - 1], more[|more| - 1];
      StepsTaken(events, init, c) + if Acts(After(events + init), last, c) then 1 else 0
  }

  /**
   Every list of such steps is finite: it does something no more often than what was left
   to do at its start, whatever other connections do and however often the database is swapped.
   */
  lemma {:induction false} StepsRunOut(events: seq<Event>, more: seq<Event>, c: nat)
    requires c in After(events).conns && FreeIds(events + more, c) && OnlyForward(more, c)
    ensures c in After(events + more).conns
    ensures StepsTaken(events, more, c) + Remaining(After(events + more).conns[c]) <= Remaining(After(events).conns[c])
  {
    hide After, React, Remaining, TakesFreeId, Next, Inv, Acts;
    if more == [] {
      assert events + more == events;
    } else {
      var init, last := more[..|more| - 1], more[|more| - 1];
      SnocOf(events, more);
      StepsRunOut(events, init, c);
      InvAfter(events + init, c);
      OneStepRunsDown(After(events + init), last, c);
    }
  }

  lemma OneStepRunsDown(s: System, e: Event, c: nat)
    requires c in s.conns && Inv(s.conns[c])
    requires e.Steps? && e.conn == c ==> IsForward(e.step)
    ensures c in React(s, e).conns
    ensures Remaining(React(s, e).conns[c]) + (if Acts(s, e, c) then 1 else 0) <= Remaining(s.conns[c])
  {
    hide Inv, Next, Remaining, Supersede;
    if Acts(s, e, c) {
      RemainingFalls(s.generation, s.conns[c], e.step);
    } else if e.Evolves? {
      SwapsCostNothing(s.conns[c], Supersede(s.conns[c].streams, s.generation + 1));
    }
  }

  lemma {:induction false} SameWeights(k: Conn, streams: Streams, n: nat)
    ensures WeightUpTo(k.(streams := streams), n) == WeightUpTo(k, n)
  {
    if n > 0 { SameWeights(k, streams, n - 1); }
  }

  lemma SwapsCostNothing(k: Conn, streams: Streams)
    ensures Remaining(k.(streams := streams)) == Remaining(k)
  {
    SameWeights(k, streams, k.sent);
  }

  lemma RestReturnsAll(generation: nat, k: Conn)
    requires Inv(k) && EndOk(k) && OnItsWay(k) && AtRest(generation, k)
    ensures forall n :: n in k.calls ==> k.calls[n].stage.Returned?
    ensures forall n :: n in k.retries ==> k.retries[n].Answered?
  {
    RestMeansNoneAwaited(generation, k);
    hide Inv, EndOk, OnItsWay, Next, NoneAwaited;
    assert Idle(generation, k);
    EverybodyReturned(generation, k);
  }

  /**
   On a connection whose messages are not lost, every way to go on comes to an end, and at
   the end nobody is left waiting: every call has returned and every retry is answered.
   */
  lemma EveryCallReturns(events: seq<Event>, c: nat, k: Conn)
    requires Reached(events, c, k) && Lossless(events, c) && AtRest(After(events).generation, k)
    ensures forall n :: n in k.calls ==> k.calls[n].stage.Returned?
    ensures forall n :: n in k.retries ==> k.retries[n].Answered?
  {
    ReachedIsOk(events, c, k);
    assert [] + events == events;
    assert After([]) == START;
    WayStays([], events, c);
    hide Inv, EndOk, OnItsWay, AtRest, After, FreeIds, Lossless;
    RestReturnsAll(After(events).generation, k);
  }
}
