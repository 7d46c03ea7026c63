/**
 The server side of WebSocket streams: the streams of a session, what each
 request does to them, and the swap of the database that supersedes them.

 `Handle` and `Supersede` are the specification; `Session` and `Server` are the
 objects whose methods update their fields in place and are proved against it.
 */
module WsStreams {
  import opened NativeTypes

  /** What a registered stream remembers: the generation of its connection, and the superseded mark. */
  datatype StreamInfo = StreamInfo(generation: nat, superseded: bool)

  type Streams = map<int32, StreamInfo>

  /** `OnStream` stands for execute, batch, sequence, describe, get_autocommit and open_cursor: they share one guard. */
  datatype Request =
    | OnStream(stream: int32)
    | OpenStream(stream: int32)
    | OpenStreamAssigned
    | CloseStream(stream: int32)

  /**
   What the handler does not decide: whether the pool yields a connection, the random ids
   drawn, and the database's answer.
   */
  datatype Env = Env(connects: bool, draws: seq<int32>, succeeds: bool)

  datatype Response = Success(streamId: int32) | Failure | SupersededFailure

  /** The session's streams after a request, the answer, and whether the body ran on the stream's connection. */
  datatype Outcome = Outcome(streams: Streams, response: Response, ran: bool)

  /** The first drawn id that is not in use; None when drawing fails before that. */
  function FirstFree(draws: seq<int32>, streams: Streams): Option<int32> {
    if draws == [] then None
    else if draws[0] !in streams then Some(draws[0])
    else FirstFree(draws[1..], streams)
  }

  function Handle(generation: nat, streams: Streams, request: Request, env: Env): Outcome {
    match request
    case OnStream(id) =>
      if id !in streams then Outcome(streams, Failure, false)
      else if streams[id].superseded then Outcome(streams - {id}, SupersededFailure, false)
      else Outcome(streams, if env.succeeds then Success(0) else Failure, true)
    case OpenStream(id) =>
      if id in streams || !env.connects then Outcome(streams, Failure, false)
      else Outcome(streams[id := StreamInfo(generation, false)], Success(id), false)
    case OpenStreamAssigned =>
      var free := FirstFree(env.draws, streams);
      if !env.connects || free.None? then Outcome(streams, Failure, false)
      else Outcome(streams[free.value := StreamInfo(generation, false)], Success(free.value), false)
    case CloseStream(id) =>
      Outcome(streams - {id}, Success(id), false)
  }

  /** The effect of a database swap on one session. */
  function Supersede(streams: Streams, newGeneration: nat): Streams {
    map id | id in streams ::
      if streams[id].generation == newGeneration then streams[id] else streams[id].(superseded := true)
  }

  /** The invariant of every session: a stream is superseded exactly when its generation is over. */
  ghost predicate StreamsOk(generation: nat, streams: Streams) {
    forall id :: id in streams ==>
      streams[id].generation <= generation && (streams[id].superseded <==> streams[id].generation < generation)
  }

  lemma {:induction false} FirstFreeIsFree(draws: seq<int32>, streams: Streams)
    ensures FirstFree(draws, streams).Some? <==> exists d :: d in draws && d !in streams
    ensures FirstFree(draws, streams).Some? ==>
              FirstFree(draws, streams).value in draws && FirstFree(draws, streams).value !in streams
    ensures forall k :: 0 <= k < |draws| && draws[k] !in streams && (forall j :: 0 <= j < k ==> draws[j] in streams) ==>
              FirstFree(draws, streams) == Some(draws[k])
  {
    if draws != [] {
      FirstFreeIsFree(draws[1..], streams);
      assert forall d :: d in draws <==> d == draws[0] || d in draws[1..];
    }
  }

  /**
   A request keeps the session's invariant; its body runs only on a stream of the
   current generation; and it is answered as superseded exactly when the stream it
   names is of an earlier one, in which case nothing runs and the stream is gone.
   */
  lemma HandleKeepsStreams(generation: nat, streams: Streams, request: Request, env: Env)
    requires StreamsOk(generation, streams)
    ensures var out := Handle(generation, streams, request, env);
            && StreamsOk(generation, out.streams)
            && (out.ran ==> request.OnStream? && request.stream in streams
                            && streams[request.stream].generation == generation)
            && (out.response.SupersededFailure? <==>
                  request.OnStream? && request.stream in streams && streams[request.stream].generation < generation)
            && (out.response.SupersededFailure? ==> !out.ran && request.stream !in out.streams)
            && (request.OnStream? && out.response.Success? ==> out.ran)
  {
  }

  /** No request takes the superseded mark off a stream, and none touches a stream it does not name or open. */
  lemma HandleNeverUnmarks(generation: nat, streams: Streams, request: Request, env: Env, id: int32)
    requires id in streams
    ensures var after := Handle(generation, streams, request, env).streams;
            id in after ==> after[id] == streams[id]
  {
    FirstFreeIsFree(env.draws, streams);
  }

  /** A swap moves the invariant to the next generation and never un-marks a stream. */
  lemma SupersedeKeepsStreams(generation: nat, streams: Streams)
    requires StreamsOk(generation, streams)
    ensures StreamsOk(generation + 1, Supersede(streams, generation + 1))
    ensures Supersede(streams, generation + 1).Keys == streams.Keys
    ensures forall id :: id in streams ==> Supersede(streams, generation + 1)[id] == StreamInfo(streams[id].generation, true)
  {
  }

  /** The per-connection session: a map of streams that handlers reassign. */
  class Session {
    var streams: Streams

    constructor ()
      ensures streams == map[]
    {
      streams := map[];
    }

    /** The guard and body shared by the handlers that run on a stream. */
    method RunOnStream(generation: nat, id: int32, succeeds: bool) returns (response: Response, ran: bool)
      modifies this
      ensures Outcome(streams, response, ran) == Handle(generation, old(streams), OnStream(id), Env(true, [], succeeds))
    {
      if id !in streams {
        return Failure, false;
      }
      if streams[id].superseded {
        Remove(id);
        return SupersededFailure, false;
      }
      response := if succeeds then Success(0) else Failure;
      ran := true;
    }

    method Open(generation: nat, id: int32, connects: bool) returns (response: Response)
      modifies this
      ensures Outcome(streams, response, false) == Handle(generation, old(streams), OpenStream(id), Env(connects, [], true))
    {
      if id in streams {
        return Failure;
      }
      if !connects {
        return Failure;
      }
      streams := streams[id := StreamInfo(generation, false)];
      response := Success(id);
    }

    /** Draws ids until one is free; `draws` is what the random source yields before it fails. */
    method OpenAssigned(generation: nat, connects: bool, draws: seq<int32>) returns (response: Response)
      modifies this
      ensures Outcome(streams, response, false)
           == Handle(generation, old(streams), OpenStreamAssigned, Env(connects, draws, true))
    {
      if !connects {
        return Failure;
      }
      var i := 0;
      while i < |draws| && draws[i] in streams
        invariant 0 <= i <= |draws| && streams == old(streams)
        invariant FirstFree(draws[i..], streams) == FirstFree(draws, streams)
      {
        assert draws[i..][1..] == draws[i + 1..];
        i := i + 1;
      }
      if i == |draws| {
        return Failure;
      }
      streams := streams[draws[i] := StreamInfo(generation, false)];
      response := Success(draws[i]);
    }

    /** Closing a stream forgets it, whatever its state, and leaves every other one as it is. */
    method Close(ghost generation: nat, id: int32, ghost env: Env) returns (response: Response)
      modifies this
      ensures Outcome(streams, response, false) == Handle(generation, old(streams), CloseStream(id), env)
      ensures response == Success(id) && id !in streams
      ensures forall i :: i in old(streams) && i != id ==> i in streams && streams[i] == old(streams)[i]
      ensures forall i :: i in streams ==> i in old(streams)
    {
      Remove(id);
      response := Success(id);
    }

    method Remove(id: int32)
      modifies this
      ensures streams == old(streams) - {id}
    {
      if id in streams {
        streams := streams - {id};
      }
    }

    method CloseAll()
      modifies this
      ensures streams == map[]
    {
      streams := map[];
    }
  }

  /** The server: the generation of its database and the sessions of its open connections. */
  class Server {
    var generation: nat
    var sessions: seq<Session>

    ghost predicate Distinct()
      reads this
    {
      forall i, j :: 0 <= i < j < |sessions| ==> sessions[i] != sessions[j]
    }

    /** Every stream of every session obeys `StreamsOk`. */
    ghost predicate Valid()
      reads this, sessions
    {
      Distinct() && forall i :: 0 <= i < |sessions| ==> StreamsOk(generation, sessions[i].streams)
    }

    /** Installs the next database and marks every stream that is not of its generation, session by session. */
    method EvolveDatabase()
      requires Valid()
      modifies this`generation, sessions
      ensures Valid()
      ensures generation == old(generation) + 1
      ensures forall i :: 0 <= i < |sessions| ==>
                sessions[i].streams == Supersede(old(sessions[i].streams), generation)
    {
      ghost var before := seq(|sessions|, i requires 0 <= i < |sessions| reads this, sessions => sessions[i].streams);
      generation := generation + 1;
      var i := 0;
      while i < |sessions|
        invariant 0 <= i <= |sessions| && generation == old(generation) + 1
        invariant forall j :: 0 <= j < i ==> sessions[j].streams == Supersede(before[j], generation)
        invariant forall j :: i <= j < |sessions| ==> sessions[j].streams == before[j]
        modifies sessions
      {
        SupersedeSession(sessions[i], generation);
        i := i + 1;
      }
      forall j | 0 <= j < |sessions| ensures StreamsOk(generation, sessions[j].streams) {
        SupersedeKeepsStreams(old(generation), before[j]);
      }
    }

    /** The inner loop of the swap, over the streams of one session. */
    static method SupersedeSession(session: Session, newGeneration: nat)
      modifies session
      ensures session.streams == Supersede(old(session.streams), newGeneration)
    {
      ghost var before := session.streams;
      var todo := session.streams.Keys;
      while todo != {}
        invariant todo <= before.Keys
        invariant session.streams.Keys == before.Keys
        invariant forall id :: id in todo ==> session.streams[id] == before[id]
        invariant forall id :: id in before && id !in todo ==> session.streams[id] == Supersede(before, newGeneration)[id]
        decreases todo
      {
        var id :| id in todo;
        todo := todo - {id};
        if session.streams[id].generation != newGeneration {
          session.streams := session.streams[id := session.streams[id].(superseded := true)];
        }
      }
    }
  }
}
