/**
 The protocol between the Go client and the server: requests, answers, database
 swaps, and the transparent retry of superseded requests, as one step machine.

 A state holds any number of connections against one server generation. Within a
 connection the k-th request ever started is call k; it owns reply channel k and
 travels under the wire id of k. Messages in flight form a bag and may be lost.
 Each step is one critical section of the client, one server handler, or one
 local action of a goroutine.
 */
module RetryProtocol {
  import opened NativeTypes
  import opened WsStreams
  import opened RetryClient

  /** Who started a call: the application, the retry of a superseded call, or a recovery led for one. */
  datatype Origin = User | RetryOf(parent: nat) | CloseFor(leader: nat) | OpenFor(leader: nat)

  /** A call is registered but not written, waits for its channel or its context, or has returned. */
  datatype Stage = Registered | Waiting | Returned(result: Result)

  /** `root` is the application's call this one was started for: itself, unless it is a retry. */
  datatype Call = Call(root: nat, retries: nat, request: Request, origin: Origin, stage: Stage)

  /** The program counter of the goroutine that retries a superseded call. */
  datatype Retry =
    | Started
    | Following(leader: nat)
    | Leading
    | Closing(call: nat)
    | Opening(call: nat)
    | Ready
    | Resent(call: nat)
    | GivingUp(reason: Reason)
    | Answered(resent: bool)

  datatype RequestMsg = RequestMsg(id: int32, request: Request, call: nat)
  datatype ResponseMsg = ResponseMsg(id: int32, response: Response, call: nat)

  /** One run of a request's body by the server: for which call, on a stream of which generation, at which generation. */
  datatype Run = Run(call: nat, root: nat, streamGeneration: nat, generation: nat)

  datatype Conn = Conn(
    core: Core,
    sent: nat,
    calls: map<nat, Call>,
    retries: map<nat, Retry>,
    readEnded: bool,
    requests: multiset<RequestMsg>,
    responses: multiset<ResponseMsg>,
    streams: Streams,
    log: seq<Run>)

  const NEW_CONN := Conn(INITIAL, 0, map[], map[], false, multiset{}, multiset{}, map[], [])

  datatype Step =
    | UserCalls(request: Request)
    | Write(call: nat)
    | WriteFails(call: nat, leaked: bool)
    | Receive(call: nat)
    | Cancel(call: nat)
    | Serve(asked: RequestMsg, env: Env)
    | Deliver(answer: ResponseMsg)
    | LoseRequest(asked: RequestMsg)
    | LoseResponse(answer: ResponseMsg)
    | ReadEnds
    | SessionEnds
    | CloseConn
    | Advance(call: nat)

  /** The int32 request id of the n-th call. */
  function WireId(n: nat): int32 {
    var m := n % TWO_TO_THE_32;
    if m < TWO_TO_THE_31 then m else m - TWO_TO_THE_32
  }

  /** Two calls share a wire id exactly when a multiple of 2^32 calls lies between them. */
  lemma WireIdsRepeat(m: nat, n: nat)
    ensures WireId(m) == WireId(n) <==> (n - m) % TWO_TO_THE_32 == 0
  {
    var a, b := m % TWO_TO_THE_32, n % TWO_TO_THE_32;
    assert m == TWO_TO_THE_32 * (m / TWO_TO_THE_32) + a && n == TWO_TO_THE_32 * (n / TWO_TO_THE_32) + b;
    assert n - m == TWO_TO_THE_32 * (n / TWO_TO_THE_32 - m / TWO_TO_THE_32) + (b - a);
  }

  predicate HasStreamId(request: Request) {
    !request.OpenStreamAssigned?
  }

  function OnNewStream(request: Request, id: int32): Request {
    match request
    case OnStream(_) => OnStream(id)
    case OpenStream(_) => OpenStream(id)
    case CloseStream(_) => CloseStream(id)
    case OpenStreamAssigned => OpenStreamAssigned
  }

  /** A call starts: it is refused at once on a closed connection, and registered otherwise. */
  function Begin(k: Conn, root: nat, retries: nat, request: Request, origin: Origin): Conn {
    var n := k.sent + 1;
    var stage := if k.core.closed then Returned(Failed(ConnectionClosed)) else Registered;
    k.(core := Register(k.core, n, request, retries),
       sent := n,
       calls := k.calls[n := Call(root, retries, request, origin, stage)])
  }

  function SetStage(k: Conn, n: nat, stage: Stage): Conn
    requires n in k.calls
  {
    k.(calls := k.calls[n := k.calls[n].(stage := stage)])
  }

  function SetRetry(k: Conn, n: nat, retry: Retry): Conn {
    k.(retries := k.retries[n := retry])
  }

  /** The answer the goroutine of call n puts on the call's channel, ending the goroutine. */
  function Answer(k: Conn, n: nat, result: Result, resent: bool): Conn {
    SetRetry(k.(core := Send(k.core, n, result)), n, Answered(resent))
  }

  function Serves(generation: nat, k: Conn, m: RequestMsg, env: Env): Conn
    requires m in k.requests && m.call in k.calls
  {
    var out := Handle(generation, k.streams, m.request, env);
    k.(requests := k.requests - multiset{m},
       responses := k.responses + multiset{ResponseMsg(m.id, out.response, m.call)},
       streams := out.streams,
       log := if out.ran
              then k.log + [Run(m.call, k.calls[m.call].root, k.streams[m.request.stream].generation, generation)]
              else k.log)
  }

  /** The caller writes its request, which is then in flight. */
  function Writes(k: Conn, n: nat): Conn
    requires n in k.calls
  {
    SetStage(k, n, Waiting).(requests := k.requests + multiset{RequestMsg(WireId(n), k.calls[n].request, n)})
  }

  /** The caller gives up its waiter: a failed write, or a cancelled context. */
  function GivesUp(k: Conn, n: nat, reason: Reason): Conn
    requires n in k.calls
  {
    SetStage(k, n, Returned(Failed(reason))).(core := Forget(k.core, WireId(n)))
  }

  /** The read loop takes an answer that settles the waiter of its id. */
  function Settles(k: Conn, m: ResponseMsg, result: Result): Conn {
    k.(responses := k.responses - multiset{m}, core := Dispatch(k.core, m.id, result))
  }

  /** The read loop takes a superseded answer: the waiter of its id goes to a goroutine that retries it. */
  function Restarts(k: Conn, m: ResponseMsg): Conn
    requires m.id in k.core.pending
  {
    SetRetry(k.(responses := k.responses - multiset{m}, core := Forget(k.core, m.id)),
             k.core.pending[m.id].chan, Started)
  }

  function Delivers(k: Conn, m: ResponseMsg): Conn {
    match m.response
    case Success(id) => Settles(k, m, Data(id))
    case Failure => Settles(k, m, Failed(Rejected))
    case SupersededFailure => if m.id in k.core.pending then Restarts(k, m) else k.(responses := k.responses - multiset{m})
  }

  /** The next action of the goroutine that retries call n; it may have to wait. */
  function Advances(k: Conn, n: nat): Conn
    requires n in k.retries && n in k.calls
  {
    var call := k.calls[n];
    match k.retries[n]
    case Started =>
      if !HasStreamId(call.request) || call.retries >= MAX_STREAM_RETRIES then SetRetry(k, n, GivingUp(SupersededStream))
      else if k.core.recovering.Some? then SetRetry(k, n, Following(k.core.recovering.value))
      else SetRetry(k.(core := JoinRecovery(k.core, n)), n, Leading)
    case Following(leader) =>
      if k.core.recovering == Some(leader) then k else SetRetry(k, n, Ready)
    case Leading =>
      SetRetry(Begin(k, k.sent + 1, 0, CloseStream(k.core.streamId), CloseFor(n)), n, Closing(k.sent + 1))
    case Closing(c) =>
      if c in k.calls && k.calls[c].stage.Returned?
      then SetRetry(Begin(k, k.sent + 1, 0, OpenStreamAssigned, OpenFor(n)), n, Opening(k.sent + 1))
      else k
    case Opening(c) =>
      if c in k.calls && k.calls[c].stage.Returned? then
        match k.calls[c].stage.result
        case Data(id) => SetRetry(k.(core := EndRecovery(k.core, Some(id))), n, Ready)
        case Failed(_) => SetRetry(k.(core := EndRecovery(k.core, None)), n, GivingUp(RecoveryFailed))
      else k
    case Ready =>
      SetRetry(Begin(k, call.root, call.retries + 1, OnNewStream(call.request, k.core.streamId), RetryOf(n)),
               n, Resent(k.sent + 1))
    case Resent(c) =>
      if c in k.calls && k.calls[c].stage.Returned? then Answer(k, n, k.calls[c].stage.result, true) else k
    case GivingUp(reason) =>
      Answer(k, n, Failed(reason), false)
    case Answered(_) => k
  }

  /** A call whose context can end: every one but a retry, which waits on the background context. */
  predicate Cancellable(origin: Origin) {
    !origin.RetryOf?
  }

  /** The effect of a step; a step that is not enabled changes nothing. */
  function Next(generation: nat, k: Conn, step: Step): Conn {
    match step
    case UserCalls(request) =>
      Begin(k, k.sent + 1, 0, request, User)
    case Write(n) =>
      if n in k.calls && k.calls[n].stage.Registered? then Writes(k, n) else k
    case WriteFails(n, leaked) =>
      if n in k.calls && k.calls[n].stage.Registered? then
        GivesUp(if leaked then Writes(k, n) else k, n, SendFailed)
      else k
    case Receive(n) =>
      if n in k.calls && k.calls[n].stage.Waiting? && Sent(k.core, n) != [] then
        SetStage(k, n, Returned(Sent(k.core, n)[0]))
      else k
    case Cancel(n) =>
      if n in k.calls && k.calls[n].stage.Waiting? && Cancellable(k.calls[n].origin) then GivesUp(k, n, Cancelled) else k
    case Serve(m, env) =>
      if m in k.requests && m.call in k.calls then Serves(generation, k, m, env) else k
    case Deliver(m) =>
      if m in k.responses && !k.readEnded then Delivers(k, m) else k
    case LoseRequest(m) => k.(requests := k.requests - multiset{m})
    case LoseResponse(m) => k.(responses := k.responses - multiset{m})
    case ReadEnds =>
      if k.readEnded then k else k.(readEnded := true, core := Drain(k.core))
    case SessionEnds => k.(streams := map[])
    case CloseConn => k.(core := k.core.(closed := true))
    case Advance(n) =>
      if n in k.retries && n in k.calls then Advances(k, n) else k
  }

  /** The whole system: the server's generation and its connections. */
  datatype System = System(generation: nat, conns: map<nat, Conn>)

  const START := System(0, map[])

  datatype Event = Connects(conn: nat) | Steps(conn: nat, step: Step) | Evolves

  function React(s: System, e: Event): System {
    match e
    case Connects(c) => if c in s.conns then s else s.(conns := s.conns[c := NEW_CONN])
    case Steps(c, step) => if c in s.conns then s.(conns := s.conns[c := Next(s.generation, s.conns[c], step)]) else s
    case Evolves =>
      System(s.generation + 1,
             map c | c in s.conns :: s.conns[c].(streams := Supersede(s.conns[c].streams, s.generation + 1)))
  }

  /** The state after any list of events. */
  function After(events: seq<Event>): System {
    if events == [] then START else React(After(events[..|events| - 1]), events[|events| - 1])
  }
}
