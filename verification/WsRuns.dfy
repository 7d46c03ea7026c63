/**
 The streams of one session over whole runs of requests and database swaps: which are
 registered, and how every request is answered, told from the history alone.
 */
module WsRuns {
  import opened NativeTypes
  import opened WsStreams

  /** A request, a swap of the database, or the end of the session. */
  datatype Event = Asks(request: Request, env: Env) | Swaps | Drops

  datatype Moment = Moment(generation: nat, streams: Streams)

  function Step(m: Moment, e: Event): Moment {
    match e
    case Asks(request, env) => m.(streams := Handle(m.generation, m.streams, request, env).streams)
    case Swaps => Moment(m.generation + 1, Supersede(m.streams, m.generation + 1))
    case Drops => m.(streams := map[])
  }

  function After(events: seq<Event>): Moment {
    if events == [] then Moment(0, map[]) else Step(After(events[..|events| - 1]), events[|events| - 1])
  }

  /** How a request is answered after a run. */
  function Answer(events: seq<Event>, request: Request, env: Env): Outcome {
    Handle(After(events).generation, After(events).streams, request, env)
  }

  // ── What happened to a stream ──

  /** Event k opened the stream. */
  predicate Opens(events: seq<Event>, k: nat, id: int32)
    requires k < |events|
  {
    && events[k].Asks? && (events[k].request.OpenStream? || events[k].request.OpenStreamAssigned?)
    && Answer(events[..k], events[k].request, events[k].env).response == Success(id)
  }

  /** Event k closed the stream, found it superseded, or ended the session. */
  predicate Ends(events: seq<Event>, k: nat, id: int32)
    requires k < |events|
  {
    || events[k].Drops?
    || (&& events[k].Asks?
        && (|| events[k].request == CloseStream(id)
            || (events[k].request == OnStream(id)
                && Answer(events[..k], events[k].request, events[k].env).response.SupersededFailure?)))
  }

  /** The stream was opened by event k and nothing has ended it since. */
  ghost predicate LivesSince(events: seq<Event>, k: nat, id: int32) {
    k < |events| && Opens(events, k, id) && forall j :: k < j < |events| ==> !Ends(events, j, id)
  }

  /** The stream was opened and nothing has ended it since. */
  ghost predicate Lives(events: seq<Event>, id: int32) {
    exists k: nat :: LivesSince(events, k, id)
  }

  predicate SwappedSince(events: seq<Event>, k: nat) {
    exists j :: k < j < |events| && events[j].Swaps?
  }

  // ── The registry tells the history ──

  /** The registry holds the stream exactly when it lives, with what there is to know about it. */
  ghost predicate Told(events: seq<Event>, id: int32) {
    && (id in After(events).streams <==> Lives(events, id))
    && forall k: nat :: LivesSince(events, k, id) ==>
         && id in After(events).streams
         && After(events).streams[id] == StreamInfo(After(events[..k]).generation, SwappedSince(events, k))
  }

  lemma LivesOneMore(events: seq<Event>, e: Event, k: nat, id: int32)
    ensures var all := events + [e];
      LivesSince(all, k, id) <==>
        if k == |events| then Opens(all, k, id) else LivesSince(events, k, id) && !Ends(all, |events|, id)
    ensures k <= |events| ==> (events + [e])[..k] == events[..k]
    ensures k < |events| ==> (SwappedSince(events + [e], k) <==> SwappedSince(events, k) || e.Swaps?)
    ensures k == |events| ==> !SwappedSince(events + [e], k)
  {
    var all, n := events + [e], |events|;
    assert forall j :: 0 <= j <= n ==> all[..j] == events[..j];
    assert all[..n] == events && all[n] == e;
    assert forall j :: 0 <= j < n ==> all[j] == events[j];
    hide Answer;
    assert forall j :: 0 <= j < n ==> Opens(all, j, id) == Opens(events, j, id) && Ends(all, j, id) == Ends(events, j, id);
    if k < n && LivesSince(all, k, id) { assert forall j :: k < j < n ==> !Ends(all, j, id); }
    if SwappedSince(events, k) {
      var j :| k < j < |events| && events[j].Swaps?;
      assert all[j].Swaps?;
    }
  }

  lemma AfterOneMore(events: seq<Event>, e: Event)
    ensures After(events + [e]) == Step(After(events), e)
  {
    assert (events + [e])[..|events|] == events;
  }

  lemma {:induction false} RegistryTells(events: seq<Event>, id: int32)
    ensures Told(events, id) && StreamsOk(After(events).generation, After(events).streams)
  {
    if events != [] {
      var before, e := events[..|events| - 1], events[|events| - 1];
      assert before + [e] == events;
      RegistryTells(before, id);
      AfterOneMore(before, e);
      hide After;
      if e.Swaps? {
        SupersedeKeepsStreams(After(before).generation, After(before).streams);
        SwapTells(before, id);
      } else if e.Drops? {
        DropTells(before, id);
      } else {
        HandleKeepsStreams(After(before).generation, After(before).streams, e.request, e.env);
        RequestTells(before, e.request, e.env, id);
      }
    }
  }

  lemma SwapTells(events: seq<Event>, id: int32)
    requires Told(events, id) && StreamsOk(After(events).generation, After(events).streams)
    ensures Told(events + [Swaps], id)
  {
    AfterOneMore(events, Swaps);
    SupersedeKeepsStreams(After(events).generation, After(events).streams);
    var all := events + [Swaps];
    assert all[|events|] == Swaps;
    hide After, Supersede, StreamsOk;
    forall k: nat ensures LivesSince(all, k, id) <==> LivesSince(events, k, id) { LivesOneMore(events, Swaps, k, id); }
    forall k: nat | LivesSince(all, k, id)
      ensures id in After(all).streams
      ensures After(all).streams[id] == StreamInfo(After(all[..k]).generation, SwappedSince(all, k))
    {
      LivesOneMore(events, Swaps, k, id);
    }
  }

  lemma DropTells(events: seq<Event>, id: int32)
    ensures Told(events + [Drops], id)
  {
    AfterOneMore(events, Drops);
    var all := events + [Drops];
    assert all[|events|] == Drops;
    hide After;
    forall k: nat ensures !LivesSince(all, k, id) { LivesOneMore(events, Drops, k, id); }
  }

  lemma RequestTells(events: seq<Event>, request: Request, env: Env, id: int32)
    requires Told(events, id)
    ensures Told(events + [Asks(request, env)], id)
  {
    var e := Asks(request, env);
    AfterOneMore(events, e);
    FirstFreeIsFree(env.draws, After(events).streams);
    var all, n := events + [e], |events|;
    assert all[n] == e && all[..n] == events;
    hide After, FirstFree;
    forall k: nat
      ensures LivesSince(all, k, id) <==>
        if k == n then Opens(all, k, id) else LivesSince(events, k, id) && !Ends(all, n, id)
      ensures k < n ==> all[..k] == events[..k] && (SwappedSince(all, k) <==> SwappedSince(events, k))
    {
      LivesOneMore(events, e, k, id);
    }
    LivesOneMore(events, e, n, id);
    hide SwappedSince, LivesSince;
    if Opens(all, n, id) {
      assert LivesSince(all, n, id) && id !in After(events).streams;
    } else if !Ends(all, n, id) && Lives(events, id) {
      var k: nat :| LivesSince(events, k, id);
      assert LivesSince(all, k, id);
    }
  }

  // ── Answers ──

  /**
   How every request is answered, by history. A statement runs exactly on a stream that lives
   and has seen no swap; it is superseded exactly when the stream lives and has seen one; and
   otherwise there is no such stream.
   */
  lemma StatementsAreAnswered(events: seq<Event>, id: int32, env: Env)
    ensures var a := Answer(events, OnStream(id), env);
      && (a.ran <==> exists k: nat :: LivesSince(events, k, id) && !SwappedSince(events, k))
      && (a.response.SupersededFailure? <==> exists k: nat :: LivesSince(events, k, id) && SwappedSince(events, k))
      && (a.response.Success? <==> a.ran && env.succeeds)
      && (!Lives(events, id) ==> a.response.Failure? && !a.ran && a.streams == After(events).streams)
  {
    RegistryTells(events, id);
    hide After, SwappedSince, LivesSince;
    if id in After(events).streams { var k: nat :| LivesSince(events, k, id); }
  }

  /**
   A stream is opened exactly when its id is not in use and a connection can be had; an
   assigned id is the first one drawn that is free.
   */
  lemma OpeningsAreAnswered(events: seq<Event>, id: int32, env: Env)
    ensures var a := Answer(events, OpenStream(id), env);
      && !a.ran && (a.response == Success(id) <==> env.connects && !Lives(events, id))
      && (a.response.Failure? <==> a.response != Success(id))
    ensures var a := Answer(events, OpenStreamAssigned, env);
      && !a.ran && !a.response.SupersededFailure?
      && (a.response == Success(id) <==>
            env.connects && exists k :: 0 <= k < |env.draws| && env.draws[k] == id && !Lives(events, id)
                                        && forall j :: 0 <= j < k ==> Lives(events, env.draws[j]))
  {
    forall i: int32 ensures i in After(events).streams <==> Lives(events, i) { RegistryTells(events, i); }
    FirstFreeIsFree(env.draws, After(events).streams);
    hide After, Lives, FirstFree;
    var free := FirstFree(env.draws, After(events).streams);
    if free == Some(id) { FirstFreeIsFirst(env.draws, After(events).streams); }
  }

  lemma {:induction false} FirstFreeIsFirst(draws: seq<int32>, streams: Streams)
    requires FirstFree(draws, streams).Some?
    ensures exists k :: 0 <= k < |draws| && draws[k] == FirstFree(draws, streams).value && draws[k] !in streams
                        && forall j :: 0 <= j < k ==> draws[j] in streams
  {
    if draws[0] in streams {
      FirstFreeIsFirst(draws[1..], streams);
      var k :| 0 <= k < |draws[1..]| && draws[1..][k] == FirstFree(draws, streams).value && draws[1..][k] !in streams
               && forall j :: 0 <= j < k ==> draws[1..][j] in streams;
      forall j | 0 <= j < k + 1 ensures draws[j] in streams { if j > 0 { assert draws[j] == draws[1..][j - 1]; } }
      assert draws[k + 1] == FirstFree(draws, streams).value;
    }
  }

  /** Closing always succeeds, and runs nothing. */
  lemma ClosingIsAnswered(events: seq<Event>, id: int32, env: Env)
    ensures var a := Answer(events, CloseStream(id), env); a.response == Success(id) && !a.ran
  {
    hide After;
  }

  /** A stream that was closed is gone until it is opened again: nothing runs on it, whatever else happens. */
  lemma ClosedStreamIsGone(a: seq<Event>, b: seq<Event>, id: int32, closing: Env, env: Env)
    requires var all := a + [Asks(CloseStream(id), closing)] + b;
      forall k :: |a| < k < |all| ==> !Opens(all, k, id)
    ensures var all := a + [Asks(CloseStream(id), closing)] + b;
      var answer := Answer(all, OnStream(id), env);
      id !in After(all).streams && answer.response.Failure? && !answer.ran
  {
    var all := a + [Asks(CloseStream(id), closing)] + b;
    assert all[|a|] == Asks(CloseStream(id), closing);
    RegistryTells(all, id);
    StatementsAreAnswered(all, id, env);
    hide After, Answer, Opens;
    forall k: nat ensures !LivesSince(all, k, id) {
      if k < |a| { assert Ends(all, |a|, id); }
      if k == |a| { assert !Opens(all, k, id) by { NoOpening(all, k, id); } }
    }
  }

  lemma NoOpening(events: seq<Event>, k: nat, id: int32)
    requires k < |events| && events[k].Asks? && events[k].request.CloseStream?
    ensures !Opens(events, k, id)
  {
  }
}
