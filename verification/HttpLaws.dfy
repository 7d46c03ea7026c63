/**
 One request over HTTP: which stream it is about, what it leaves of that stream and of all
 others, that a cursor does what a batch in a pipeline does, and what a closed stream or one in
 readonly mode does to the database.
 */
module HttpLaws {
  import opened NativeTypes
  import Executor
  import Streams
  import Pipelines
  import PipelineLaws
  import BatchCursor
  import Cursors
  import opened HttpStreams
  import opened HttpTheorems

  // ── Which stream ──

  /** The request comes with no baton; an empty one is none. */
  predicate NamesNone(head: Head) {
    head.baton.None? || head.baton.value == Baton("")
  }

  /** The request is about stream i: the one stored under its baton, or a new one. */
  predicate IsAbout<S>(s: Server<S>, head: Head, i: nat) {
    if NamesNone(head) then head.opens && i == |s.streams|
    else head.baton.value in s.entries && i == s.entries[head.baton.value].stream
  }

  predicate IsRequest(op: Op) {
    op.Pipeline? || op.Cursor?
  }

  /** Stream i as the request finds it: as it was stored, or new, open, in the mode that was asked for. */
  function FoundAs<S>(s: Server<S>, head: Head, i: nat): HttpStream {
    if i < |s.streams| then s.streams[i] else HttpStream(false, head.readonly, map[])
  }

  /** A request about no stream is told why, and changes nothing. */
  lemma RefusalsSayWhy<S>(conn: nat -> Env<S>, ttl: int, s: Server<S>, op: Op)
    requires InRange(s) && IsRequest(op)
    ensures var (s', reply) := Apply(conn, ttl, s, op);
      && (reply == NotFound <==> !NamesNone(op.head) && op.head.baton.value !in s.entries)
      && (reply == OpenFailed <==> NamesNone(op.head) && !op.head.opens)
      && (reply == NotFound || reply == OpenFailed <==> forall i: nat :: !IsAbout(s, op.head, i))
      && (reply == NotFound || reply == OpenFailed ==> s' == s)
  {
    hide EnvOf, Pipelines.RunPipeline, Executor.RunCursor;
    var r := Resolve(s, op.head);
    if r.Got? { assert IsAbout(s, op.head, r.stream); }
  }

  // ── What a request leaves ──

  /** All streams but i are as they were, and all batons but that of the request and the new one. */
  ghost predicate OthersStay<S>(s: Server<S>, s': Server<S>, head: Head, i: nat) {
    && |s'.streams| == Max(|s.streams|, i + 1)
    && (forall j :: 0 <= j < |s.streams| && j != i ==> s'.streams[j] == s.streams[j])
    && (forall b :: b in s.entries && Some(b) != head.baton && Some(b) != head.generated ==>
          b in s'.entries && s'.entries[b] == s.entries[b])
    && (forall b :: b in s'.entries ==> b in s.entries || Some(b) == head.generated)
  }

  /** The stream is stored under the new baton, used just now, and under the old one no more. */
  ghost predicate Rotated<S>(s: Server<S>, s': Server<S>, head: Head, i: nat) {
    && head.generated.Some? && head.generated.value in s'.entries
    && s'.entries[head.generated.value] == BatonEntry(i, head.now)
    && (!NamesNone(head) && head.generated != head.baton ==> head.baton.value !in s'.entries)
  }

  /** No baton could be generated: the stream is closed, and if it was stored it still is, used just now. */
  ghost predicate LeftClosed<S>(s: Server<S>, s': Server<S>, head: Head, i: nat) {
    && head.generated.None? && i < |s'.streams| && s'.streams[i].closed
    && (!NamesNone(head) ==>
          head.baton.value in s'.entries && s'.entries[head.baton.value] == BatonEntry(i, head.now))
  }

  /**
   What a pipeline leaves. Its requests run on the connection of its stream, in that stream's
   mode and with that stream's texts; the stream is then closed by its own `close`, kept under
   a new baton, or closed for want of one.
   */
  lemma PipelineLeaves<S>(conn: nat -> Env<S>, s: Server<S>, head: Head, requests: seq<Pipelines.Request>, i: nat)
    requires InRange(s) && IsAbout(s, head, i) && !FoundAs(s, head, i).closed
    ensures var (s', reply) := HandlePipeline(conn, s, head, requests);
      var st := FoundAs(s, head, i);
      var o := Pipelines.RunPipeline(conn(i).(readonly := st.readonly), Pipelines.Here(s.state, st.stored), requests);
      && OthersStay(s, s', head, i) && s'.state == o.here.state && i < |s'.streams|
      && s'.streams[i].readonly == st.readonly && s'.streams[i].stored == o.here.stored
      && (s'.streams[i].closed <==> o.closed || head.generated.None?)
      && (o.closed ==>
            && reply == PipelineReply(None, o.results)
            && (!NamesNone(head) ==> head.baton.value !in s'.entries)
            && (forall b :: b in s'.entries ==> b in s.entries))
      && (!o.closed && head.generated.Some? ==>
            reply == PipelineReply(head.generated, o.results) && Rotated(s, s', head, i))
      && (!o.closed && head.generated.None? ==> reply == GenerateFailed && LeftClosed(s, s', head, i))
  {
    hide Pipelines.RunPipeline;
    var st := FoundAs(s, head, i);
    var r := Resolve(s, head);
    assert r.Got? && r.stream == i && r.server.streams[i] == st;
  }

  /**
   What a cursor leaves: the same, but for the texts, which stay; and when its first line does
   not get out nothing runs, and the stream is kept under a baton nobody was told.
   */
  lemma CursorLeaves<S>(
    conn: nat -> Env<S>, s: Server<S>, head: Head, steps: seq<Executor.Step>, headerSent: bool, i: nat)
    requires InRange(s) && IsAbout(s, head, i) && !FoundAs(s, head, i).closed
    ensures var (s', reply) := HandleCursor(conn, s, head, steps, headerSent);
      var st := FoundAs(s, head, i);
      var c := Executor.RunCursor(conn(i).(readonly := st.readonly, stored := st.stored), steps, s.state);
      && OthersStay(s, s', head, i) && i < |s'.streams|
      && (head.generated.None? ==> reply == GenerateFailed && LeftClosed(s, s', head, i) && s'.state == s.state)
      && (head.generated.Some? ==> Rotated(s, s', head, i) && s'.streams[i] == st)
      && (head.generated.Some? && headerSent ==>
            s'.state == c.batch.state && reply == CursorReply(head.generated.value, c.entries))
      && (head.generated.Some? && !headerSent ==> s'.state == s.state && reply == NoReply)
  {
    hide Executor.RunCursor;
    var st := FoundAs(s, head, i);
    var r := Resolve(s, head);
    assert r.Got? && r.stream == i && r.server.streams[i] == st;
  }

  /** The mode of a stream is that of the request that opened it, for good. */
  lemma ModeStays<S>(conn: nat -> Env<S>, ttl: int, s: Server<S>, op: Op, i: nat)
    ensures var s' := Apply(conn, ttl, s, op).0;
      && |s.streams| <= |s'.streams|
      && (i < |s.streams| ==> s'.streams[i].readonly == s.streams[i].readonly)
      && (|s.streams| <= i < |s'.streams| ==> IsRequest(op) && s'.streams[i].readonly == op.head.readonly)
  {
    hide EnvOf, Pipelines.RunPipeline, Executor.RunCursor;
  }

  // ── A cursor and a pipeline ──

  /**
   A cursor over HTTP and a pipeline with the same steps as its only request leave the same
   server, and what the entries decode to is what the batch reports, on a stream that may write
   or with nothing to write.
   */
  lemma CursorIsABatchRequest<S>(conn: nat -> Env<S>, s: Server<S>, head: Head, steps: seq<Executor.Step>, i: nat)
    requires InRange(s) && IsAbout(s, head, i) && !FoundAs(s, head, i).closed && head.generated.Some?
    requires |steps| <= TWO_TO_THE_32
    requires var st := FoundAs(s, head, i);
      BatchCursor.NothingToForbid(conn(i).(readonly := st.readonly, stored := st.stored), steps)
    ensures var (s1, asCursor) := HandleCursor(conn, s, head, steps, true);
      var (s2, asBatch) := HandlePipeline(conn, s, head, [Pipelines.Request.Batch(Some(steps))]);
      var st := FoundAs(s, head, i);
      var env := conn(i).(readonly := st.readonly, stored := st.stored);
      && s1.state == s2.state && s1.entries == s2.entries && s1.streams == s2.streams
      && asCursor.CursorReply? && asBatch.PipelineReply?
      && BatchCursor.SaysTheSame(env, steps, s.state, Executor.RunBatch(env, steps, s.state),
                                 Cursors.Decode(asCursor.entries, |steps|))
      && Reported(asBatch.results, Executor.RunBatch(env, steps, s.state))
  {
    var st := FoundAs(s, head, i);
    var base := conn(i).(readonly := st.readonly);
    var env := base.(stored := st.stored);
    var r := Resolve(s, head);
    assert r.Got? && r.stream == i && r.server.streams[i] == st;
    BatchCursor.DecodedCursorIsTheBatch(env, steps, s.state);
    OneBatch(base, Pipelines.Here(s.state, st.stored), steps);
    hide Pipelines.RunPipeline, Executor.RunCursor, Executor.RunBatch, BatchCursor.SaysTheSame, Cursors.Decode, Reported;
    assert EnvOf(conn, i, st).(stored := st.stored) == env && EnvOf(conn, i, st) == base;
    assert r.server.streams[i := st] == r.server.streams;
  }

  /** One result, of the batch. */
  predicate Reported<S>(results: seq<Executor.Result<Pipelines.Response>>, b: Executor.Batch<S>) {
    && |results| == 1
    && results[0] == if b.failure.Some? then Executor.Err(b.failure.value)
                     else Executor.Ok(Pipelines.BatchDone(Streams.BatchResult(b.results, b.errors)))
  }

  lemma OneBatch<S>(env: Env<S>, h: Pipelines.Here<S>, steps: seq<Executor.Step>)
    ensures var o := Pipelines.RunPipeline(env, h, [Pipelines.Request.Batch(Some(steps))]);
      var b := Executor.RunBatch(env.(stored := h.stored), steps, h.state);
      !o.closed && o.here == Pipelines.Here(b.state, h.stored) && Reported(o.results, b)
  {
    hide Executor.RunBatch;
    PipelineLaws.NoneYet(env, h);
    PipelineLaws.OneMore(env, h, [], Pipelines.Request.Batch(Some(steps)));
    Pipelines.ClosedByAClose(env, h, [Pipelines.Request.Batch(Some(steps))], false);
    assert [] + [Pipelines.Request.Batch(Some(steps))] == [Pipelines.Request.Batch(Some(steps))];
    hide Pipelines.RunPipeline;
  }

  // ── Closed streams ──

  /** Nothing that runs here changes the database. */
  ghost predicate Inert<S(!new)>(env: Env<S>) {
    && (forall s, sql, args :: env.exec(s, sql, args).0 == s)
    && (forall s, sql, args :: env.query(s, sql, args).0 == s)
  }

  lemma {:induction false} InertBatch<S(!new)>(env: Env<S>, steps: seq<Executor.Step>, state: S, upTo: nat)
    requires Inert(env) && upTo <= |steps|
    ensures Executor.BatchUpTo(env, steps, state, upTo).state == state
    ensures Executor.CursorUpTo(env, steps, state, upTo).batch.state == state
  {
    hide Executor.Holds, Executor.BuildArgs, Executor.ResolveSql, Executor.ExecOutcome, Executor.QueryOutcome;
    if upTo > 0 { InertBatch(env, steps, state, upTo - 1); }
  }

  lemma {:induction false} InertPieces<S(!new)>(env: Env<S>, state: S, pieces: seq<string>)
    requires Inert(env)
    ensures Streams.RunPieces(env, state, pieces).state == state
  {
    hide Streams.TrimSpace;
    if pieces != [] { InertPieces(env, state, pieces[1..]); }
  }

  lemma InertRequest<S(!new)>(env: Env<S>, h: Pipelines.Here<S>, request: Pipelines.Request)
    requires Inert(env)
    ensures Pipelines.Dispatch(env, h, request).0.state == h.state
  {
    var here := env.(stored := h.stored);
    assert Inert(here);
    hide Inert;
    match request
    case Batch(Some(steps)) => InertBatch(here, steps, h.state, |steps|); hide Executor.BatchUpTo;
    case Sequence(Some(script)) =>
      var text := Pipelines.ResolveStreamSql(script, h.stored);
      if text.Ok? { InertPieces(here, h.state, Streams.Split(text.value, ';')); }
      hide Streams.RunPieces, Pipelines.ResolveStreamSql;
    case _ =>
      assert Inert(here);
      hide Pipelines.ResolveStreamSql, Executor.ResolveSql, Executor.BuildArgs, Executor.QueryOutcome, Executor.ExecOutcome;
  }

  lemma {:induction false} InertPipeline<S(!new)>(env: Env<S>, h: Pipelines.Here<S>, requests: seq<Pipelines.Request>)
    requires Inert(env)
    ensures Pipelines.RunPipeline(env, h, requests).here.state == h.state
    decreases |requests|
  {
    hide Pipelines.RunPipeline, Pipelines.Dispatch, Inert;
    if requests == [] {
      PipelineLaws.NoneYet(env, h);
    } else {
      var before, last := requests[..|requests| - 1], requests[|requests| - 1];
      assert before + [last] == requests;
      InertPipeline(env, h, before);
      PipelineLaws.OneMore(env, h, before, last);
      InertRequest(env, Pipelines.RunPipeline(env, h, before).here, last);
    }
  }

  lemma ClosedIsInert<S(!new)>(conn: nat -> Env<S>, i: nat, st: HttpStream)
    requires st.closed
    ensures Inert(EnvOf(conn, i, st)) && Inert(EnvOf(conn, i, st).(stored := st.stored))
  {
  }

  /** A request about a stream that is stored but closed changes nothing in the database, whatever it asks. */
  lemma ClosedStreamDoesNothing<S(!new)>(conn: nat -> Env<S>, ttl: int, s: Server<S>, op: Op, i: nat)
    requires InRange(s) && IsRequest(op) && IsAbout(s, op.head, i) && i < |s.streams| && s.streams[i].closed
    ensures Apply(conn, ttl, s, op).0.state == s.state
  {
    var st := s.streams[i];
    var r := Resolve(s, op.head);
    assert r.Got? && r.stream == i && r.server.streams[i] == st;
    ClosedIsInert(conn, i, st);
    hide EnvOf, Inert;
    match op
    case Pipeline(_, requests) =>
      InertPipeline(EnvOf(conn, i, st), Pipelines.Here(s.state, st.stored), requests);
      hide Pipelines.RunPipeline;
    case Cursor(_, steps, _) =>
      InertBatch(EnvOf(conn, i, st).(stored := st.stored), steps, s.state, |steps|);
      hide Executor.CursorUpTo;
  }

  // ── Readonly streams ──

  /** Connections whose calls are all written down. */
  function LoggingAll<S>(conn: nat -> Env<S>): nat -> Env<PipelineLaws.Logged<S>> {
    (i: nat) => PipelineLaws.Logging(conn(i))
  }

  /**
   A pipeline on a stream opened in readonly mode calls the database for a write exactly when
   it comes to the description of one.
   */
  lemma ReadonlyStreamWrites<S>(
    conn: nat -> Env<S>, s: Server<PipelineLaws.Logged<S>>, head: Head, requests: seq<Pipelines.Request>, i: nat)
    requires InRange(s) && IsAbout(s, head, i) && !FoundAs(s, head, i).closed && FoundAs(s, head, i).readonly
    ensures var s' := HandlePipeline(LoggingAll(conn), s, head, requests).0;
      var env := conn(i).(readonly := true);
      var h := Pipelines.Here(s.state.state, FoundAs(s, head, i).stored);
      && s.state.calls <= s'.state.calls
      && (PipelineLaws.Writes(env, s'.state.calls[|s.state.calls|..])
          <==> exists k: nat :: PipelineLaws.DescribesAWriteAt(env, h, requests, k))
  {
    var st := FoundAs(s, head, i);
    var env, h := conn(i).(readonly := true), Pipelines.Here(s.state.state, st.stored);
    PipelineLeaves(LoggingAll(conn), s, head, requests, i);
    assert LoggingAll(conn)(i).(readonly := true) == PipelineLaws.Logging(env);
    PipelineLaws.LogGrows(env, s.state, st.stored, requests);
    PipelineLaws.ReadonlyPipelineWrites(env, h, requests);
    hide Pipelines.RunPipeline, PipelineLaws.Calls, PipelineLaws.Writes;
    hide PipelineLaws.DescribesAWriteAt, PipelineLaws.Logging;
    var calls := PipelineLaws.Calls(env, h, requests);
    assert (s.state.calls + calls)[|s.state.calls|..] == calls;
  }
}
