/**
 One request at a time succeeds: on an open connection whose stream exists, with a server
 that can serve and a network that delivers, a request outlives as many swaps of the
 database as retries are allowed, and leaves the connection ready for the next one.
 */
module RetrySuccess {
  import opened NativeTypes
  import opened WsStreams
  import opened RetryClient
  import opened RetryProtocol
  import opened RetryInvariants
  import opened RetrySteps
  import opened RetryTheorems
  import opened RetryProgress
  import opened RetryLiveness
  import opened RetryUnderWay

  // ── The whole run ──

  /** The step is one of the client, the server or the read loop, and a server that is asked is able. */
  predicate Helps(k: Conn, step: Step) {
    IsForward(step) && (step.Serve? && step.asked in k.requests ==> Able(k.streams, step.env))
  }

  /** In the continuation nothing else is asked on connection c, nothing goes wrong there, and the server is able. */
  predicate Helpful(events: seq<Event>, more: seq<Event>, c: nat) {
    more == [] ||
    var init, last := more[..|more| - 1], more[|more| - 1];
    var s := After(events + init);
    Helpful(events, init, c) && (last.Steps? && last.conn == c && c in s.conns ==> Helps(s.conns[c], last.step))
  }

  function Swaps(events: seq<Event>): nat {
    if events == [] then 0 else Swaps(events[..|events| - 1]) + if events[|events| - 1].Evolves? then 1 else 0
  }

  /** The application's call that started the request. */
  predicate IsFirst(k: Conn, first: nat) {
    first in k.calls && k.calls[first].root == first && k.calls[first].request.OnStream?
  }

  lemma OneReplyEach(k: Conn, n: nat)
    requires ChannelsOk(k) && n in k.calls
    ensures |Sent(k.core, n)| <= 1
  {
    assert ChannelOk(k, n);
  }

  lemma CallerGoesOn(generation: nat, k: Conn, first: nat, budget: nat, step: Step)
    requires ChannelsOk(k) && UnderWay(k, first, budget) && (step.Write? || step.Receive?)
    ensures UnderWay(Next(generation, k, step), first, budget)
  {
    hide ChannelsOk, UnderWay, Writes, SetStage, Sent, Next;
    CallerStepIs(generation, k, step);
    match step {
      case Write(n) => if n in k.calls && k.calls[n].stage.Registered? { WriteGoesOn(k, first, budget, n); }
      case Receive(n) =>
        if n in k.calls && k.calls[n].stage.Waiting? && Sent(k.core, n) != [] {
          OneReplyEach(k, n);
          ReceiveGoesOn(k, first, budget, n);
        }
    }
  }

  lemma StepGoesOn(generation: nat, k: Conn, first: nat, budget: nat, step: Step)
    requires Inv(k) && UnderWay(k, first, budget) && budget <= MAX_STREAM_RETRIES && Helps(k, step)
    ensures UnderWay(Next(generation, k, step), first, budget)
  {
    assert ChannelsOk(k);
    hide Inv, ChannelsOk, UnderWay, Serves, Delivers, Advances, Able, Next;
    if step.Write? || step.Receive? {
      CallerGoesOn(generation, k, first, budget, step);
    } else if step.Serve? {
      CallerStepIs(generation, k, step);
      var m := step.asked;
      if m in k.requests && m.call in k.calls { ServeGoesOn(generation, k, first, budget, m, step.env); }
    } else {
      ClientStepIs(generation, k, step);
      match step {
        case Deliver(m) => if m in k.responses { DeliverGoesOn(k, first, budget, m); }
        case Advance(n) => if n in k.retries && n in k.calls { AdvanceGoesOn(k, first, budget, n); }
      }
    }
  }

  lemma AdvanceKeepsFirst(k: Conn, first: nat, n: nat)
    requires Shape(k) && IsFirst(k, first) && n in k.retries && n in k.calls
    ensures IsFirst(Advances(k, n), first)
  {
    assert k.sent + 1 != first;
    hide WireId, Register, Send, Shape, JoinRecovery, EndRecovery, OnNewStream, HasStreamId;
  }

  lemma NextKeepsFirst(generation: nat, k: Conn, first: nat, step: Step)
    requires Shape(k) && IsFirst(k, first) && IsForward(step)
    ensures IsFirst(Next(generation, k, step), first)
  {
    hide WireId, Handle, Shape, Advances, Delivers, Sent;
    match step {
      case Advance(n) => if n in k.retries && n in k.calls { AdvanceKeepsFirst(k, first, n); }
      case Deliver(m) => if m in k.responses { DeliveryTakesTheWaiter(k, m); }
      case _ =>
    }
  }

  lemma EventGoesOn(s: System, e: Event, c: nat, first: nat, budget: nat)
    requires c in s.conns && Inv(s.conns[c]) && UnderWay(s.conns[c], first, budget) && budget <= MAX_STREAM_RETRIES
    requires IsFirst(s.conns[c], first)
    requires e.Steps? && e.conn == c ==> Helps(s.conns[c], e.step)
    ensures c in React(s, e).conns && IsFirst(React(s, e).conns[c], first)
    ensures UnderWay(React(s, e).conns[c], first, budget + if e.Evolves? then 1 else 0)
  {
    var k := s.conns[c];
    assert Shape(k);
    hide Inv, UnderWay, Next, Supersede, Shape;
    match e
    case Connects(_) =>
    case Steps(d, step) =>
      if d == c {
        StepGoesOn(s.generation, k, first, budget, step);
        NextKeepsFirst(s.generation, k, first, step);
      }
    case Evolves => SwapGoesOn(k, first, budget, s.generation + 1);
  }

  lemma {:induction false} RunGoesOn(events: seq<Event>, more: seq<Event>, c: nat, first: nat, budget: nat)
    requires c in After(events).conns
    requires UnderWay(After(events).conns[c], first, budget) && IsFirst(After(events).conns[c], first)
    requires FreeIds(events + more, c) && Helpful(events, more, c) && budget + Swaps(more) <= MAX_STREAM_RETRIES
    ensures c in After(events + more).conns && IsFirst(After(events + more).conns[c], first)
    ensures UnderWay(After(events + more).conns[c], first, budget + Swaps(more))
    ensures Lossless(more, c)
  {
    hide After, React, UnderWay, Inv, TakesFreeId, IsFirst;
    if more == [] {
      assert events + more == events;
    } else {
      var init, last := more[..|more| - 1], more[|more| - 1];
      SnocOf(events, more);
      RunGoesOn(events, init, c, first, budget);
      InvAfter(events + init, c);
      EventGoesOn(After(events + init), last, c, first, budget + Swaps(init));
    }
  }

  // ── The end ──

  lemma RestIsQuiet(generation: nat, k: Conn, first: nat, budget: nat)
    requires Inv(k) && EndOk(k) && OnItsWay(k) && UnderWay(k, first, budget) && AtRest(generation, k)
    ensures Quiet(k) && InUse(k)
  {
    RestReturnsAll(generation, k);
    assert NetworkOk(k);
    NothingInFlight(generation, k);
    hide Inv, EndOk, OnItsWay, AtRest, NetworkOk, CallsFit, RetriesFit, MessagesFit;
  }

  lemma FirstSucceeded(k: Conn, first: nat, budget: nat)
    requires Inv(k) && UnderWay(k, first, budget) && IsFirst(k, first) && k.calls[first].stage.Returned?
    ensures k.calls[first].stage.result.Data? && RanFor(k, first)
  {
    assert CallFits(k, first, budget, first);
    assert CallAnswerOk(k, first);
    hide Inv, UnderWay;
  }

  /** The request has run and returned its data, and the connection is ready for the next one. */
  ghost predicate Succeeded(k: Conn, first: nat) {
    && first in k.calls && k.calls[first].stage.Returned? && k.calls[first].stage.result.Data? && RanFor(k, first)
    && Quiet(k) && InUse(k)
  }

  lemma RestIsSuccess(generation: nat, k: Conn, first: nat, budget: nat)
    requires Inv(k) && EndOk(k) && OnItsWay(k) && UnderWay(k, first, budget) && IsFirst(k, first) && AtRest(generation, k)
    ensures Succeeded(k, first)
  {
    RestIsQuiet(generation, k, first, budget);
    assert k.calls[first].stage.Returned?;
    hide Inv, EndOk, OnItsWay, UnderWay, AtRest, Quiet, InUse;
    FirstSucceeded(k, first, budget);
  }

  lemma QuietIsOnItsWay(k: Conn)
    requires Quiet(k)
    ensures OnItsWay(k)
  {
  }

  /** The application asks for one request on the connection's stream. */
  function TheCall(c: nat, k: Conn): Event {
    Steps(c, UserCalls(OnStream(k.core.streamId)))
  }

  lemma TheCallHappens(events: seq<Event>, c: nat, k: Conn)
    requires c in After(events).conns && After(events).conns[c] == k
    ensures var s := After(events + [TheCall(c, k)]);
      c in s.conns && s.conns[c] == Begin(k, k.sent + 1, 0, OnStream(k.core.streamId), User)
  {
    AfterSnoc(events, TheCall(c, k));
    hide After, Begin;
  }

  lemma TheCallIsFirst(k: Conn)
    ensures IsFirst(Begin(k, k.sent + 1, 0, OnStream(k.core.streamId), User), k.sent + 1)
  {
    hide WireId, Register;
  }

  lemma CallGoesOut(events: seq<Event>, c: nat, k: Conn)
    requires Reached(events, c, k) && Quiet(k) && InUse(k)
    ensures var s := After(events + [TheCall(c, k)]);
      && c in s.conns && UnderWay(s.conns[c], k.sent + 1, Missed(k))
      && IsFirst(s.conns[c], k.sent + 1) && OnItsWay(s.conns[c])
  {
    var request := OnStream(k.core.streamId);
    ReachedIsOk(events, c, k);
    TheCallHappens(events, c, k);
    assert Shape(k) && RecoveryOk(k);
    hide Reached, Inv, UnderWay, Quiet, InUse, OnItsWay, After;
    hide Begin, Shape, RecoveryOk, IsFirst, KeepsWay, Missed, TheCall;
    RequestStarts(k);
    TheCallIsFirst(k);
    QuietIsOnItsWay(k);
    BeginKeepsWay(k, k.sent + 1, 0, request, User);
    WayKept(k, Begin(k, k.sent + 1, 0, request, User));
  }

  /** How a connection gets its stream: it asks the server to open one, and has the answer. */
  const ASKED := RequestMsg(1, OpenStream(0), 1)
  const GRANTED := ResponseMsg(1, Success(0), 1)
  const OPENING := [UserCalls(OpenStream(0)), Write(1), Serve(ASKED, Env(true, [], true)), Deliver(GRANTED), Receive(1)]

  function Play(k: Conn, steps: seq<Step>): Conn {
    if steps == [] then k else Next(0, Play(k, steps[..|steps| - 1]), steps[|steps| - 1])
  }

  function Played(steps: seq<Step>): seq<Event> {
    if steps == [] then [Connects(0)] else Played(steps[..|steps| - 1]) + [Steps(0, steps[|steps| - 1])]
  }

  lemma {:induction false} AfterPlayed(steps: seq<Step>)
    ensures var s := After(Played(steps));
      s.generation == 0 && 0 in s.conns && s.conns[0] == Play(NEW_CONN, steps)
  {
    hide After, Next;
    if steps == [] {
      AfterConnect();
      EmptyRun();
      AfterSnoc([], Connects(0));
      assert [] + [Connects(0)] == [Connects(0)];
    } else {
      var init, last := steps[..|steps| - 1], steps[|steps| - 1];
      AfterPlayed(init);
      AfterSnoc(Played(init), Steps(0, last));
    }
  }

  lemma EmptyRun()
    ensures After([]) == START
  {
  }

  lemma PlayedOnce(k: Conn, steps: seq<Step>, step: Step)
    ensures Play(k, steps + [step]) == Next(0, Play(k, steps), step)
  {
    hide Next;
    assert (steps + [step])[..|steps|] == steps;
  }

  lemma OpeningPlays()
    ensures var k1 := Next(0, NEW_CONN, OPENING[0]);
            var k2 := Next(0, k1, OPENING[1]);
            var k3 := Next(0, k2, OPENING[2]);
            Play(NEW_CONN, OPENING) == Next(0, Next(0, k3, OPENING[3]), OPENING[4])
  {
    hide Next;
    var o := OPENING;
    PlayedOnce(NEW_CONN, [], o[0]);
    PlayedOnce(NEW_CONN, o[..1], o[1]);
    PlayedOnce(NEW_CONN, o[..2], o[2]);
    PlayedOnce(NEW_CONN, o[..3], o[3]);
    PlayedOnce(NEW_CONN, o[..4], o[4]);
    assert [] + [o[0]] == o[..1] && o[..1] + [o[1]] == o[..2] && o[..2] + [o[2]] == o[..3];
    assert o[..3] + [o[3]] == o[..4] && o[..4] + [o[4]] == o;
  }

  /** The connection during its opening. */
  ghost predicate OpeningAt(k: Conn, stage: Stage, requests: multiset<RequestMsg>, responses: multiset<ResponseMsg>,
                            streams: Streams) {
    && k.calls == map[1 := Call(1, 0, OpenStream(0), User, stage)] && k.sent == 1 && k.retries == map[] && !k.readEnded
    && k.requests == requests && k.responses == responses && k.streams == streams
    && !k.core.closed && k.core.streamId == 0
  }

  ghost predicate WaitsFor1(k: Conn) {
    1 in k.core.pending && k.core.pending[1] == Waiter(1, OpenStream(0), 0) && Sent(k.core, 1) == []
  }

  lemma OpeningAsks()
    ensures var k := Next(0, NEW_CONN, OPENING[0]);
      OpeningAt(k, Registered, multiset{}, multiset{}, map[]) && WaitsFor1(k)
  {
  }

  lemma OpeningIsWritten(k: Conn)
    requires OpeningAt(k, Registered, multiset{}, multiset{}, map[]) && WaitsFor1(k)
    ensures var k' := Next(0, k, OPENING[1]); OpeningAt(k', Waiting, multiset{ASKED}, multiset{}, map[]) && WaitsFor1(k')
  {
    hide Begin, GivesUp, Serves, Delivers, Advances, Drain;
  }

  lemma OpeningIsServed(k: Conn)
    requires OpeningAt(k, Waiting, multiset{ASKED}, multiset{}, map[]) && WaitsFor1(k)
    ensures var k' := Next(0, k, OPENING[2]);
      OpeningAt(k', Waiting, multiset{}, multiset{GRANTED}, map[0 := StreamInfo(0, false)]) && WaitsFor1(k')
  {
    hide Begin, GivesUp, Writes, Delivers, Advances, Drain, SetStage;
  }

  lemma OpeningIsDelivered(k: Conn)
    requires OpeningAt(k, Waiting, multiset{}, multiset{GRANTED}, map[0 := StreamInfo(0, false)]) && WaitsFor1(k)
    ensures var k' := Next(0, k, OPENING[3]);
      OpeningAt(k', Waiting, multiset{}, multiset{}, map[0 := StreamInfo(0, false)]) && Sent(k'.core, 1) == [Data(0)]
  {
    hide Begin, GivesUp, Writes, Serves, Advances, Drain, SetStage;
  }

  lemma OpeningIsReceived(k: Conn)
    requires OpeningAt(k, Waiting, multiset{}, multiset{}, map[0 := StreamInfo(0, false)]) && Sent(k.core, 1) == [Data(0)]
    ensures OpeningAt(Next(0, k, OPENING[4]), Returned(Data(0)), multiset{}, multiset{}, map[0 := StreamInfo(0, false)])
  {
    hide Begin, GivesUp, Writes, Serves, Advances, Drain, Delivers;
  }

  lemma OpeningSucceeds()
    ensures var k := Play(NEW_CONN, OPENING);
      OpeningAt(k, Returned(Data(0)), multiset{}, multiset{}, map[0 := StreamInfo(0, false)])
  {
    hide Play, Next, OpeningAt, WaitsFor1;
    OpeningPlays();
    OpeningAsks();
    var k1 := Next(0, NEW_CONN, OPENING[0]);
    OpeningIsWritten(k1);
    var k2 := Next(0, k1, OPENING[1]);
    OpeningIsServed(k2);
    var k3 := Next(0, k2, OPENING[2]);
    OpeningIsDelivered(k3);
    OpeningIsReceived(Next(0, k3, OPENING[3]));
  }

  /** A connection that has opened its stream is at rest and ready for a request. */
  lemma OpenedIsReady()
    ensures var s := After(Played(OPENING));
      && 0 in s.conns && Reached(Played(OPENING), 0, s.conns[0])
      && Quiet(s.conns[0]) && InUse(s.conns[0]) && Missed(s.conns[0]) == 0
  {
    AfterPlayed(OPENING);
    OpeningSucceeds();
    hide Play, Played, After;
    FewCallsTakeFreeIds(Played(OPENING), 0);
  }

  /**
   One request at a time succeeds: asked on an open connection at rest whose stream is there,
   and seeing no more swaps than retries are allowed, one that may have hit the stream before
   it included, it has run and has returned its data when the connection comes to rest again;
   and then the connection is as ready for the next request as before.
   */
  lemma RequestSucceeds(events: seq<Event>, c: nat, k: Conn, more: seq<Event>)
    requires Reached(events, c, k) && Quiet(k) && InUse(k)
    requires var asked := events + [TheCall(c, k)];
      FreeIds(asked + more, c) && Helpful(asked, more, c) && Missed(k) + Swaps(more) <= MAX_STREAM_RETRIES
    ensures var s := After(events + [TheCall(c, k)] + more);
      && c in s.conns
      && (AtRest(s.generation, s.conns[c]) ==> Succeeded(s.conns[c], k.sent + 1))
  {
    hide Inv, UnderWay, Quiet, InUse, OnItsWay, EndOk, AtRest, After, FreeIds, Helpful, Lossless, Succeeded, IsFirst;
    hide StreamsOk, TheCall, Swaps, Missed;
    var asked, n := events + [TheCall(c, k)], k.sent + 1;
    CallGoesOut(events, c, k);
    RunGoesOn(asked, more, c, n, Missed(k));
    WayStays(asked, more, c);
    ReachedIsOk(asked + more, c, After(asked + more).conns[c]);
    var s := After(asked + more);
    if AtRest(s.generation, s.conns[c]) {
      RestIsSuccess(s.generation, s.conns[c], n, Missed(k) + Swaps(more));
    }
  }
}
