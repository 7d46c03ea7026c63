/**
 The requests of a pipeline on one stream: they run in order, up to the first
 `close`, and keep the stream's stored SQL texts between them.
 */
module Pipelines {
  import opened NativeTypes
  import opened Executor
  import Streams

  datatype SqlRef = SqlRef(sql: Option<string>, sqlId: Option<int32>)

  datatype NewSql = NewSql(id: int32, sql: string)

  /** A request; the payload its type calls for may be missing. */
  datatype Request =
    | Close
    | Execute(stmt: Option<Stmt>)
    | Batch(steps: Option<seq<Step>>)
    | Sequence(script: Option<SqlRef>)
    | Describe(text: Option<SqlRef>)
    | StoreSql(newSql: Option<NewSql>)
    | CloseSql(sqlId: Option<int32>)
    | GetAutocommit
    | Unknown(quoted: string)

  datatype Response =
    | ClosedStream
    | Executed(result: StmtResult)
    | BatchDone(batch: Streams.BatchResult)
    | SequenceDone
    | Described(cols: seq<Col>, isExplain: bool, isReadonly: bool)
    | SqlStored
    | SqlClosed
    | Autocommit(on: bool)

  /** What the requests of a stream change: the database, and the stream's stored texts. */
  datatype Here<S> = Here(state: S, stored: map<int32, string>)

  function ResolveStreamSql(text: SqlRef, stored: map<int32, string>): Result<string> {
    if text.sql.Some? && text.sqlId.Some? then Err("hrana: exactly one of sql and sql_id must be specified")
    else if text.sql.Some? then Ok(text.sql.value)
    else if text.sqlId.Some? then
      if text.sqlId.value in stored then Ok(stored[text.sqlId.value])
      else Err("hrana: sql_id " + Decimal(text.sqlId.value) + " not found")
    else Err("hrana: one of sql or sql_id must be specified")
  }

  /** The capital of a letter, as far as the words `describe` looks for can tell: two more letters have an ASCII capital. */
  function Capital(c: char): char {
    if 'a' <= c <= 'z' then ((c as int) - 32) as char
    else if c as int == 0x131 then 'I'
    else if c as int == 0x17F then 'S'
    else c
  }

  predicate StartsWith(text: string, word: string) {
    |word| <= |text| && forall i :: 0 <= i < |word| ==> Capital(text[i]) == word[i]
  }

  predicate LooksReadonly(text: string) {
    StartsWith(text, "SELECT") || StartsWith(text, "EXPLAIN") || StartsWith(text, "PRAGMA") || StartsWith(text, "WITH")
  }

  /** Column metadata and what the first word tells, nothing at all if the query fails; the rows are not read. */
  function DescribeReply(sql: string, reply: QueryReply): Response {
    match reply
    case QueryFailed(_) => Described([], false, false)
    case Rows(cols, _, _) =>
      var text := Streams.TrimSpace(sql);
      Described(cols, StartsWith(text, "EXPLAIN"), LooksReadonly(text))
  }

  function DescribeStmt<S>(env: Env<S>, state: S, sql: string): (S, Response) {
    var (after, reply) := env.query(state, sql, []);
    (after, DescribeReply(sql, reply))
  }

  function Dispatch<S>(env: Env<S>, h: Here<S>, request: Request): (Here<S>, Result<Response>) {
    var here := env.(stored := h.stored);
    match request
    case Close => (h, Ok(ClosedStream))
    case Execute(stmt) =>
      if stmt.None? then (h, Err("hrana: missing execute payload"))
      else
        var ran := RunStmt(here, h.state, stmt.value);
        (h.(state := ran.state),
         match ran.outcome case Ok(result) => Ok(Response.Executed(result)) case Err(message) => Err(message))
    case Batch(steps) =>
      if steps.None? then (h, Err("hrana: missing batch payload"))
      else
        var b := RunBatch(here, steps.value, h.state);
        (h.(state := b.state),
         if b.failure.Some? then Err(b.failure.value) else Ok(BatchDone(Streams.BatchResult(b.results, b.errors))))
    case Sequence(script) =>
      if script.None? then (h, Err("hrana: missing sequence payload"))
      else (match ResolveStreamSql(script.value, h.stored)
        case Err(message) => (h, Err(message))
        case Ok(text) =>
          var ran := Streams.RunSequence(here, h.state, text);
          (h.(state := ran.state), if ran.outcome.Some? then Err(ran.outcome.value) else Ok(SequenceDone)))
    case Describe(text) =>
      if text.None? then (h, Err("hrana: missing describe payload"))
      else (match ResolveStreamSql(text.value, h.stored)
        case Err(message) => (h, Err(message))
        case Ok(sql) =>
          var (after, described) := DescribeStmt(here, h.state, sql);
          (h.(state := after), Ok(described)))
    case StoreSql(newSql) =>
      if newSql.None? then (h, Err("hrana: missing store_sql payload"))
      else if newSql.value.id in h.stored then
        (h, Err("hrana: sql_id " + Decimal(newSql.value.id) + " is already in use"))
      else (h.(stored := h.stored[newSql.value.id := newSql.value.sql]), Ok(SqlStored))
    case CloseSql(sqlId) =>
      if sqlId.None? then (h, Err("hrana: missing close_sql payload"))
      else (h.(stored := h.stored - {sqlId.value}), Ok(SqlClosed))
    case GetAutocommit => (h, Ok(Autocommit(true)))
    case Unknown(quoted) => (h, Err("hrana: unknown stream request type " + quoted))
  }

  /** What a pipeline leaves: the stream's state, a result for every request, and whether the stream was closed. */
  datatype Outcome<S> = Outcome(here: Here<S>, results: seq<Result<Response>>, closed: bool)

  const STREAM_IS_CLOSED := "stream is closed"

  function RunRequests<S>(env: Env<S>, h: Here<S>, requests: seq<Request>, closed: bool): (o: Outcome<S>)
    ensures |o.results| == |requests|
    decreases requests
  {
    if requests == [] then Outcome(h, [], closed)
    else if closed then
      var rest := RunRequests(env, h, requests[1..], true);
      rest.(results := [Err(STREAM_IS_CLOSED)] + rest.results)
    else
      var (h', result) := Dispatch(env, h, requests[0]);
      var rest := RunRequests(env, h', requests[1..], requests[0].Close?);
      rest.(results := [result] + rest.results)
  }

  function RunPipeline<S>(env: Env<S>, h: Here<S>, requests: seq<Request>): Outcome<S> {
    RunRequests(env, h, requests, false)
  }

  class PipelineRun<S> {
    const env: Env<S>
    var here: Here<S>

    constructor (env: Env<S>, here: Here<S>)
      ensures this.env == env && this.here == here
    {
      this.env, this.here := env, here;
    }

    /** Runs one request on the stream's connection, with the stream's own stored texts. */
    method DispatchStreamRequest(request: Request) returns (result: Result<Response>)
      modifies this
      ensures (here, result) == Dispatch(env, old(here), request)
    {
      hide RunStmt, RunBatch, Streams.RunSequence;
      var stream := new Streams.Stream(env.(stored := here.stored), here.state);
      match request
      case Close => result := Ok(ClosedStream);
      case Execute(stmt) =>
        if stmt.None? { return Err("hrana: missing execute payload"); }
        var outcome := stream.ExecuteStmt(stmt.value);
        here := here.(state := stream.state);
        result := match outcome case Ok(value) => Ok(Response.Executed(value)) case Err(message) => Err(message);
      case Batch(steps) =>
        if steps.None? { return Err("hrana: missing batch payload"); }
        var outcome := stream.ExecuteBatch(steps.value);
        here := here.(state := stream.state);
        result := match outcome case Ok(value) => Ok(BatchDone(value)) case Err(message) => Err(message);
      case Sequence(script) =>
        if script.None? { return Err("hrana: missing sequence payload"); }
        var text := ResolveStreamSql(script.value, here.stored);
        if text.Err? { return Err(text.message); }
        var failure := stream.ExecuteSequence(text.value);
        here := here.(state := stream.state);
        result := if failure.Some? then Err(failure.value) else Ok(SequenceDone);
      case Describe(text) =>
        if text.None? { return Err("hrana: missing describe payload"); }
        var sql := ResolveStreamSql(text.value, here.stored);
        if sql.Err? { return Err(sql.message); }
        var reply := stream.Query(sql.value, []);
        here := here.(state := stream.state);
        result := Ok(DescribeReply(sql.value, reply));
      case StoreSql(newSql) =>
        if newSql.None? { return Err("hrana: missing store_sql payload"); }
        if newSql.value.id in here.stored {
          return Err("hrana: sql_id " + Decimal(newSql.value.id) + " is already in use");
        }
        here := here.(stored := here.stored[newSql.value.id := newSql.value.sql]);
        result := Ok(SqlStored);
      case CloseSql(sqlId) =>
        if sqlId.None? { return Err("hrana: missing close_sql payload"); }
        here := here.(stored := here.stored - {sqlId.value});
        result := Ok(SqlClosed);
      case GetAutocommit => result := Ok(Autocommit(true));
      case Unknown(quoted) => result := Err("hrana: unknown stream request type " + quoted);
    }

    method ExecutePipelineRequests(requests: seq<Request>) returns (results: array<Result<Response>>, closed: bool)
      modifies this
      ensures Outcome(here, results[..], closed) == RunPipeline(env, old(here), requests)
    {
      hide Dispatch, RunRequests;
      results := new Result<Response>[|requests|](_ => Err(""));
      closed := false;
      ghost var whole := RunPipeline(env, here, requests);
      assert requests[0..] == requests;
      for i := 0 to |requests|
        invariant var rest := RunRequests(env, here, requests[i..], closed);
          whole.here == rest.here && whole.results == results[..i] + rest.results && whole.closed == rest.closed
      {
        ghost var done, before, wasClosed := results[..i], here, closed;
        if closed {
          results[i] := Err(STREAM_IS_CLOSED);
        } else {
          results[i] := DispatchStreamRequest(requests[i]);
          if requests[i].Close? { closed := true; }
        }
        OneRequest(env, before, requests, i, wasClosed);
        assert results[..i + 1] == done + [results[i]];
        ghost var rest := RunRequests(env, here, requests[i + 1..], closed).results;
        assert done + ([results[i]] + rest) == results[..i + 1] + rest;
      }
      assert requests[|requests|..] == [] && results[..] + [] == results[..|requests|];
      NoRequests(env, here, closed);
    }
  }

  lemma NoRequests<S>(env: Env<S>, h: Here<S>, closed: bool)
    ensures RunRequests(env, h, [], closed) == Outcome(h, [], closed)
  {
  }

  lemma OneRequest<S>(env: Env<S>, h: Here<S>, requests: seq<Request>, i: nat, closed: bool)
    requires i < |requests|
    ensures var next := if closed then (h, Err(STREAM_IS_CLOSED)) else Dispatch(env, h, requests[i]);
      var rest := RunRequests(env, next.0, requests[i + 1..], closed || requests[i].Close?);
      RunRequests(env, h, requests[i..], closed) == rest.(results := [next.1] + rest.results)
  {
    hide Dispatch;
    Streams.PieceFirst(requests, i);
  }

  // ── In turn ──

  lemma {:induction false} RequestsInTurn<S>(env: Env<S>, h: Here<S>, a: seq<Request>, b: seq<Request>, closed: bool)
    ensures var first := RunRequests(env, h, a, closed);
      var second := RunRequests(env, first.here, b, first.closed);
      RunRequests(env, h, a + b, closed) == second.(results := first.results + second.results)
    decreases a
  {
    hide Dispatch;
    if a == [] {
      assert a + b == b;
    } else {
      assert (a + b)[0] == a[0] && (a + b)[1..] == a[1..] + b;
      var next := if closed then h else Dispatch(env, h, a[0]).0;
      RequestsInTurn(env, next, a[1..], b, closed || a[0].Close?);
    }
  }

  lemma {:induction false} ClosedByAClose<S>(env: Env<S>, h: Here<S>, requests: seq<Request>, closed: bool)
    ensures RunRequests(env, h, requests, closed).closed <==> closed || Close in requests
    decreases requests
  {
    hide Dispatch;
    if requests != [] {
      var next := if closed then h else Dispatch(env, h, requests[0]).0;
      ClosedByAClose(env, next, requests[1..], closed || requests[0].Close?);
    }
  }

  /**
   Without a `close` in the first part, a pipeline can be cut in two: the second part run
   from where the first left the stream gives the same results and the same stored texts.
   */
  lemma PipelineCanBeCut<S>(env: Env<S>, h: Here<S>, a: seq<Request>, b: seq<Request>)
    requires Close !in a
    ensures var first := RunPipeline(env, h, a);
      var second := RunPipeline(env, first.here, b);
      && !first.closed
      && RunPipeline(env, h, a + b) == second.(results := first.results + second.results)
  {
    RequestsInTurn(env, h, a, b, false);
    ClosedByAClose(env, h, a, false);
  }

  lemma {:induction false} NothingRunsOnAClosedStream<S>(env: Env<S>, h: Here<S>, requests: seq<Request>)
    ensures RunRequests(env, h, requests, true) ==
            Outcome(h, seq(|requests|, _ => Err(STREAM_IS_CLOSED)), true)
    decreases requests
  {
    if requests != [] { NothingRunsOnAClosedStream(env, h, requests[1..]); }
  }

  /** After the first `close` nothing is dispatched any more: every later result is an error and nothing changes. */
  lemma NothingAfterClose<S>(env: Env<S>, h: Here<S>, a: seq<Request>, b: seq<Request>)
    requires Close in a
    ensures var first := RunPipeline(env, h, a);
      RunPipeline(env, h, a + b) ==
      Outcome(first.here, first.results + seq(|b|, _ => Err(STREAM_IS_CLOSED)), true)
  {
    RequestsInTurn(env, h, a, b, false);
    ClosedByAClose(env, h, a, false);
    NothingRunsOnAClosedStream(env, RunPipeline(env, h, a).here, b);
  }

  // ── Stored texts ──

  lemma DispatchKeepsSql<S>(env: Env<S>, h: Here<S>, request: Request, id: int32)
    ensures var stored := Dispatch(env, h, request).0.stored;
      && (id in h.stored && request != CloseSql(Some(id)) ==> id in stored && stored[id] == h.stored[id])
      && (id in stored ==> id in h.stored || request == StoreSql(Some(NewSql(id, stored[id]))))
  {
    hide RunStmt, RunBatch, ResolveStreamSql;
  }

  /** Only `close_sql` forgets a stored text, and nothing replaces one. */
  lemma {:induction false} StoredSqlIsKept<S>(env: Env<S>, h: Here<S>, requests: seq<Request>, closed: bool, id: int32)
    requires id in h.stored && CloseSql(Some(id)) !in requests
    ensures var stored := RunRequests(env, h, requests, closed).here.stored; id in stored && stored[id] == h.stored[id]
    decreases requests
  {
    hide Dispatch;
    if requests != [] {
      if !closed { DispatchKeepsSql(env, h, requests[0], id); }
      var next := if closed then h else Dispatch(env, h, requests[0]).0;
      StoredSqlIsKept(env, next, requests[1..], closed || requests[0].Close?, id);
    }
  }

  /** What is stored was there before, or was put there by a `store_sql` of the pipeline. */
  lemma {:induction false} StoredSqlWasGiven<S>(env: Env<S>, h: Here<S>, requests: seq<Request>, closed: bool, id: int32)
    requires id in RunRequests(env, h, requests, closed).here.stored
    ensures var sql := RunRequests(env, h, requests, closed).here.stored[id];
      (id in h.stored && h.stored[id] == sql) || StoreSql(Some(NewSql(id, sql))) in requests
    decreases requests
  {
    hide Dispatch;
    if requests != [] {
      var next := if closed then h else Dispatch(env, h, requests[0]).0;
      StoredSqlWasGiven(env, next, requests[1..], closed || requests[0].Close?, id);
      if !closed { DispatchKeepsSql(env, h, requests[0], id); DispatchGivesSql(env, h, requests[0], id); }
    }
  }

  lemma DispatchGivesSql<S>(env: Env<S>, h: Here<S>, request: Request, id: int32)
    ensures var stored := Dispatch(env, h, request).0.stored;
      id in stored && id in h.stored ==> stored[id] == h.stored[id]
  {
    hide RunStmt, RunBatch, ResolveStreamSql;
  }
}
