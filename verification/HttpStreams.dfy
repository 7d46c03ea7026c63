/**
 Streams over HTTP: a stream is kept between requests under a baton that every
 request exchanges for a new one, until it is closed, idle for too long, or the
 server shuts down. Requests on the server take effect one after the other.
 */
module HttpStreams {
  import opened NativeTypes
  import Executor
  import Pipelines
  import Streams

  type Env<!S> = Executor.Env<S>

  datatype Baton = Baton(hex: string)

  /** A stream and, as `closed` says, whether its connection is back in the pool. */
  datatype HttpStream = HttpStream(closed: bool, readonly: bool, stored: map<int32, string>)

  /** A stored stream, by its place among all streams ever opened. */
  datatype BatonEntry = BatonEntry(stream: nat, lastSeen: int)

  datatype Server<S> = Server(state: S, streams: seq<HttpStream>, entries: map<Baton, BatonEntry>)

  /** What the requests have in common: the baton sent, and how opening and generating turn out if tried. */
  datatype Head = Head(baton: Option<Baton>, readonly: bool, opens: bool, generated: Option<Baton>, now: int)

  datatype Op =
    | Pipeline(head: Head, requests: seq<Pipelines.Request>)
    | Cursor(head: Head, steps: seq<Executor.Step>, headerSent: bool)
    | Sweep(now: int)
    | Shutdown

  datatype Reply =
    | NotFound
    | OpenFailed
    | GenerateFailed
    | PipelineReply(baton: Option<Baton>, results: seq<Executor.Result<Pipelines.Response>>)
    | CursorReply(newBaton: Baton, entries: seq<Executor.Entry>)
    | NoReply

  const CONN_DONE := "sql: connection is already closed"

  // ── The baton store ──

  /** The baton a request names; an empty one counts as none. */
  function OldBaton(head: Head): Option<Baton> {
    if head.baton.Some? && head.baton.value.hex != "" then head.baton else None
  }

  function Put<S>(s: Server<S>, stream: nat, prior: Option<Baton>, rotated: Baton, now: int): Server<S> {
    var kept := if prior.Some? then s.entries - {prior.value} else s.entries;
    s.(entries := kept[rotated := BatonEntry(stream, now)])
  }

  function CloseStream<S>(s: Server<S>, stream: nat): Server<S> {
    if stream < |s.streams| then s.(streams := s.streams[stream := s.streams[stream].(closed := true)]) else s
  }

  predicate StoredUnder(entries: map<Baton, BatonEntry>, batons: set<Baton>, stream: nat) {
    exists b :: b in batons && b in entries && entries[b].stream == stream
  }

  /** Closes the streams under some batons and forgets the batons. */
  function Evict<S>(s: Server<S>, batons: set<Baton>): Server<S> {
    Server(s.state,
           seq(|s.streams|, i requires 0 <= i < |s.streams| =>
             if StoredUnder(s.entries, batons, i) then s.streams[i].(closed := true) else s.streams[i]),
           s.entries - batons)
  }

  function Expired<S>(s: Server<S>, ttl: int, now: int): set<Baton> {
    set b | b in s.entries && s.entries[b].lastSeen < now - ttl
  }

  // ── Requests ──

  datatype Resolved<S> = Refused(reply: Reply) | Got(server: Server<S>, stream: nat)

  function Resolve<S>(s: Server<S>, head: Head): Resolved<S> {
    var prior := OldBaton(head);
    if prior.Some? then
      if prior.value !in s.entries then Refused(NotFound)
      else
        var entry := s.entries[prior.value];
        Got(s.(entries := s.entries[prior.value := entry.(lastSeen := head.now)]), entry.stream)
    else if !head.opens then Refused(OpenFailed)
    else Got(s.(streams := s.streams + [HttpStream(false, head.readonly, map[])]), |s.streams|)
  }

  /** What a stream's statements run against: its connection, which answers nothing once it is closed. */
  function EnvOf<S>(conn: nat -> Env<S>, stream: nat, st: HttpStream): Env<S> {
    var env := conn(stream).(readonly := st.readonly);
    if !st.closed then env
    else env.(exec := (s, sql, args) => (s, Executor.ExecFailed(CONN_DONE)),
              query := (s, sql, args) => (s, Executor.QueryFailed(CONN_DONE)))
  }

  function RunOn<S>(conn: nat -> Env<S>, s: Server<S>, stream: nat, requests: seq<Pipelines.Request>): Pipelines.Outcome<S>
    requires stream < |s.streams|
  {
    var st := s.streams[stream];
    Pipelines.RunPipeline(EnvOf(conn, stream, st), Pipelines.Here(s.state, st.stored), requests)
  }

  /** The server after requests have run on a stream. */
  function Ran<S>(s: Server<S>, stream: nat, here: Pipelines.Here<S>): Server<S>
    requires stream < |s.streams|
  {
    s.(state := here.state, streams := s.streams[stream := s.streams[stream].(stored := here.stored)])
  }

  function HandlePipeline<S>(conn: nat -> Env<S>, s: Server<S>, head: Head, requests: seq<Pipelines.Request>):
      (Server<S>, Reply) {
    match Resolve(s, head)
    case Refused(reply) => (s, reply)
    case Got(s1, stream) =>
      if stream >= |s1.streams| then (s1, NoReply)
      else
        var prior := OldBaton(head);
        var o := RunOn(conn, s1, stream, requests);
        var s2 := Ran(s1, stream, o.here);
        if o.closed then
          var s3 := CloseStream(s2, stream);
          (if prior.Some? then s3.(entries := s3.entries - {prior.value}) else s3, PipelineReply(None, o.results))
        else if head.generated.None? then (CloseStream(s2, stream), GenerateFailed)
        else (Put(s2, stream, prior, head.generated.value, head.now), PipelineReply(head.generated, o.results))
  }

  function HandleCursor<S>(conn: nat -> Env<S>, s: Server<S>, head: Head, steps: seq<Executor.Step>, headerSent: bool)
    : (Server<S>, Reply)
  {
    match Resolve(s, head)
    case Refused(reply) => (s, reply)
    case Got(s1, stream) =>
      if stream >= |s1.streams| then (s1, NoReply)
      else if head.generated.None? then (CloseStream(s1, stream), GenerateFailed)
      else
        var s2 := Put(s1, stream, OldBaton(head), head.generated.value, head.now);
        if !headerSent then (s2, NoReply)
        else
          var st := s2.streams[stream];
          var c := Executor.RunCursor(EnvOf(conn, stream, st).(stored := st.stored), steps, s2.state);
          (s2.(state := c.batch.state), CursorReply(head.generated.value, c.entries))
  }

  function Apply<S>(conn: nat -> Env<S>, ttl: int, s: Server<S>, op: Op): (Server<S>, Reply) {
    match op
    case Pipeline(head, requests) => HandlePipeline(conn, s, head, requests)
    case Cursor(head, steps, headerSent) => HandleCursor(conn, s, head, steps, headerSent)
    case Sweep(now) => (Evict(s, Expired(s, ttl, now)), NoReply)
    case Shutdown => (Evict(s, s.entries.Keys), NoReply)
  }

  // ── The server ──

  /** Every baton stands for a stream that was opened. */
  ghost predicate InRange<S>(s: Server<S>) {
    forall b :: b in s.entries ==> s.entries[b].stream < |s.streams|
  }

  class HttpServer<S> {
    const conn: nat -> Env<S>
    const ttl: int
    var state: S
    var streams: seq<HttpStream>
    var entries: map<Baton, BatonEntry>

    ghost function Value(): Server<S>
      reads this
    {
      Server(state, streams, entries)
    }

    ghost predicate Valid()
      reads this
    {
      InRange(Value())
    }

    constructor (conn: nat -> Env<S>, ttl: int, state: S)
      ensures Valid()
      ensures this.conn == conn && this.ttl == ttl && Value() == Server(state, [], map[])
    {
      this.conn, this.ttl, this.state, streams, entries := conn, ttl, state, [], map[];
    }

    method PutBaton(stream: nat, prior: Option<Baton>, generated: Option<Baton>, now: int) returns (ok: bool)
      requires Valid() && stream < |streams|
      modifies this
      ensures Valid()
      ensures ok == generated.Some?
      ensures Value() == if ok then Put(old(Value()), stream, prior, generated.value, now) else old(Value())
    {
      if generated.None? { return false; }
      if prior.Some? { entries := entries - {prior.value}; }
      entries := entries[generated.value := BatonEntry(stream, now)];
      return true;
    }

    method Close(stream: nat)
      requires Valid()
      modifies this
      ensures Valid()
      ensures Value() == CloseStream(old(Value()), stream)
    {
      if stream >= |streams| || streams[stream].closed {
        assert stream < |streams| ==> streams == streams[stream := streams[stream].(closed := true)];
        return;
      }
      streams := streams[stream := streams[stream].(closed := true)];
    }

    /** Closes the streams under some of the stored batons and forgets these batons, in no particular order. */
    method EvictAll(batons: set<Baton>)
      requires Valid() && batons <= entries.Keys
      modifies this
      ensures Valid()
      ensures Value() == Evict(old(Value()), batons)
    {
      ghost var before := Value();
      var todo := batons;
      EvictNone(before);
      while todo != {}
        invariant todo <= batons && forall b :: b in todo ==> b in entries && entries[b] == before.entries[b]
        invariant Valid() && Value() == Evict(before, batons - todo)
        decreases todo
      {
        var b :| b in todo;
        EvictOne(before, batons - todo, b);
        assert batons - todo + {b} == batons - (todo - {b});
        Close(entries[b].stream);
        entries := entries - {b};
        todo := todo - {b};
      }
      assert batons - {} == batons;
    }

    method SweepIdle(now: int)
      requires Valid()
      modifies this
      ensures Valid()
      ensures Value() == Apply(conn, ttl, old(Value()), Sweep(now)).0
    {
      var deadline := now - ttl;
      EvictAll(set b | b in entries && entries[b].lastSeen < deadline);
    }

    method CloseStore()
      requires Valid()
      modifies this
      ensures Valid()
      ensures Value() == Apply(conn, ttl, old(Value()), Shutdown).0
      ensures entries == map[]
    {
      EvictAll(entries.Keys);
    }

    /** The stream of a request: the one under its baton, or a new one. */
    method ResolveStream(head: Head) returns (found: Option<nat>, reply: Reply)
      requires Valid()
      modifies this
      ensures Valid()
      ensures match Resolve(old(Value()), head)
        case Refused(r) => found == None && reply == r && Value() == old(Value())
        case Got(s, stream) => found == Some(stream) && Value() == s && stream < |streams|
    {
      reply := NoReply;
      var prior := OldBaton(head);
      if prior.Some? {
        if prior.value !in entries { return None, NotFound; }
        var entry := entries[prior.value];
        entries := entries[prior.value := entry.(lastSeen := head.now)];
        return Some(entry.stream), NoReply;
      }
      if !head.opens { return None, OpenFailed; }
      streams := streams + [HttpStream(false, head.readonly, map[])];
      return Some(|streams| - 1), NoReply;
    }

    method ServePipeline(head: Head, requests: seq<Pipelines.Request>) returns (reply: Reply)
      requires Valid()
      modifies this
      ensures Valid()
      ensures (Value(), reply) == Apply(conn, ttl, old(Value()), Pipeline(head, requests))
    {
      hide Pipelines.RunPipeline, EnvOf;
      var found, refused := ResolveStream(head);
      if found.None? { return refused; }
      var stream := found.value;
      var st := streams[stream];
      var run := new Pipelines.PipelineRun(EnvOf(conn, stream, st), Pipelines.Here(state, st.stored));
      var results, closed := run.ExecutePipelineRequests(requests);
      state := run.here.state;
      streams := streams[stream := st.(stored := run.here.stored)];
      var prior := OldBaton(head);
      if closed {
        Close(stream);
        if prior.Some? { entries := entries - {prior.value}; }
        return PipelineReply(None, results[..]);
      }
      var ok := PutBaton(stream, prior, head.generated, head.now);
      if !ok {
        Close(stream);
        return GenerateFailed;
      }
      return PipelineReply(head.generated, results[..]);
    }

    method ServeCursor(head: Head, steps: seq<Executor.Step>, headerSent: bool) returns (reply: Reply)
      requires Valid()
      modifies this
      ensures Valid()
      ensures (Value(), reply) == Apply(conn, ttl, old(Value()), Cursor(head, steps, headerSent))
    {
      hide Executor.RunCursor, EnvOf;
      var found, refused := ResolveStream(head);
      if found.None? { return refused; }
      var stream := found.value;
      var ok := PutBaton(stream, OldBaton(head), head.generated, head.now);
      if !ok {
        Close(stream);
        return GenerateFailed;
      }
      if !headerSent { return NoReply; }
      var st := streams[stream];
      var connection := new Streams.Stream(EnvOf(conn, stream, st).(stored := st.stored), state);
      var cursor := connection.ExecuteBatchCursor(steps);
      state := connection.state;
      return CursorReply(head.generated.value, cursor);
    }
  }

  lemma EvictNone<S>(s: Server<S>)
    ensures Evict(s, {}) == s
  {
    assert Evict(s, {}).streams == s.streams;
    assert s.entries - {} == s.entries;
  }

  lemma EvictOne<S>(s: Server<S>, batons: set<Baton>, b: Baton)
    requires b in s.entries && b !in batons && s.entries[b].stream < |s.streams|
    ensures var done := Evict(s, batons);
      && Evict(s, batons + {b}) == CloseStream(done, s.entries[b].stream).(entries := done.entries - {b})
      && forall c :: c in s.entries && c !in batons ==> c in done.entries && done.entries[c] == s.entries[c]
  {
    var done, next := Evict(s, batons), Evict(s, batons + {b});
    var stream := s.entries[b].stream;
    assert StoredUnder(s.entries, batons + {b}, stream);
    forall i | 0 <= i < |s.streams| && i != stream
      ensures StoredUnder(s.entries, batons + {b}, i) == StoredUnder(s.entries, batons, i)
    {
    }
    assert next.streams == CloseStream(done, stream).streams;
    assert next.entries == done.entries - {b};
  }
}
