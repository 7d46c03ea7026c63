/**
 What the requests of a pipeline do to each other: the stored texts as a history of
 `store_sql` and `close_sql`, the texts a statement, a script or a description runs, and the
 calls a stream in readonly mode makes.
 */
module PipelineLaws {
  import opened NativeTypes
  import opened Executor
  import opened StatementLaws
  import ScriptLaws
  import BatchCursor
  import opened Conditions
  import Streams
  import opened Pipelines

  // ── One request more ──

  lemma OneMore<S>(env: Env<S>, h: Here<S>, requests: seq<Request>, last: Request)
    ensures var o, all := RunPipeline(env, h, requests), RunPipeline(env, h, requests + [last]);
      if Close in requests then all.here == o.here && all.results == o.results + [Err(STREAM_IS_CLOSED)]
      else
        var (here, result) := Dispatch(env, o.here, last);
        all.here == here && all.results == o.results + [result]
  {
    RequestsInTurn(env, h, requests, [last], false);
    ClosedByAClose(env, h, requests, false);
    hide Dispatch;
  }

  lemma NoneYet<S>(env: Env<S>, h: Here<S>)
    ensures RunPipeline(env, h, []) == Outcome(h, [], false)
  {
  }

  // ── Stored texts ──

  /** Request k is dispatched: no `close` comes before it. */
  predicate Dispatched(requests: seq<Request>, k: nat) {
    k < |requests| && Close !in requests[..k]
  }

  /** Request k stored the text under the id, as its result says. */
  predicate StoresAt<S>(env: Env<S>, h: Here<S>, requests: seq<Request>, k: nat, id: int32, sql: string) {
    && Dispatched(requests, k) && requests[k] == StoreSql(Some(NewSql(id, sql)))
    && RunPipeline(env, h, requests).results[k] == Ok(SqlStored)
  }

  /** After request `from` the id was closed. */
  predicate ClosedFrom(requests: seq<Request>, from: nat, id: int32) {
    exists k :: from <= k < |requests| && Dispatched(requests, k) && requests[k] == CloseSql(Some(id))
  }

  /** By the history of the pipeline, the id holds the text: from before it or stored in it, and not closed since. */
  ghost predicate Holding<S>(env: Env<S>, h: Here<S>, requests: seq<Request>, id: int32, sql: string) {
    || (id in h.stored && h.stored[id] == sql && !ClosedFrom(requests, 0, id))
    || exists k: nat :: StoresAt(env, h, requests, k, id, sql) && !ClosedFrom(requests, k + 1, id)
  }

  /** What one request does to the stored texts and says about it. */
  lemma DispatchStores<S>(env: Env<S>, h: Here<S>, request: Request)
    ensures var (h', result) := Dispatch(env, h, request);
      && (request.CloseSql? && request.sqlId.Some? ==>
            && result == Ok(SqlClosed)
            && forall id :: id in h'.stored <==> id in h.stored && id != request.sqlId.value)
      && (request.StoreSql? && request.newSql.Some? ==>
            var given := request.newSql.value;
            && (result == Ok(SqlStored) <==> given.id !in h.stored) && (result.Err? <==> given.id in h.stored)
            && (forall id :: id in h'.stored <==> id in h.stored || id == given.id)
            && (given.id !in h.stored ==> h'.stored[given.id] == given.sql))
      && (forall id :: id in h.stored && id in h'.stored ==> h'.stored[id] == h.stored[id])
      && (!request.CloseSql? && !request.StoreSql? ==> h'.stored == h.stored)
      && (request == StoreSql(None) || request == CloseSql(None) ==> h' == h && result.Err?)
  {
    hide RunStmt, RunBatch, ResolveStreamSql, Streams.RunSequence;
  }

  lemma ClosedOneMore(requests: seq<Request>, last: Request, from: nat, id: int32)
    requires from <= |requests| + 1
    ensures ClosedFrom(requests + [last], from, id) <==>
      ClosedFrom(requests, from, id)
      || (from <= |requests| && Close !in requests && last == CloseSql(Some(id)))
  {
    var all := requests + [last];
    assert forall k :: 0 <= k <= |requests| ==> all[..k] == requests[..k];
    assert requests[..|requests|] == requests;
    assert forall k: nat :: k < |requests| ==> all[k] == requests[k] && Dispatched(all, k) == Dispatched(requests, k);
    if ClosedFrom(requests, from, id) {
      var k :| from <= k < |requests| && Dispatched(requests, k) && requests[k] == CloseSql(Some(id));
      assert Dispatched(all, k) && all[k] == CloseSql(Some(id));
    }
    if from <= |requests| && Close !in requests && last == CloseSql(Some(id)) {
      assert Dispatched(all, |requests|) && all[|requests|] == CloseSql(Some(id));
    }
  }

  lemma StoresOneMore<S>(env: Env<S>, h: Here<S>, requests: seq<Request>, last: Request, k: nat, id: int32, sql: string)
    ensures StoresAt(env, h, requests + [last], k, id, sql) <==>
      if k < |requests| then StoresAt(env, h, requests, k, id, sql)
      else k == |requests| && Close !in requests && last == StoreSql(Some(NewSql(id, sql)))
           && id !in RunPipeline(env, h, requests).here.stored
  {
    var all := requests + [last];
    OneMore(env, h, requests, last);
    DispatchStores(env, RunPipeline(env, h, requests).here, last);
    assert forall j :: 0 <= j <= |requests| ==> all[..j] == requests[..j];
    assert requests[..|requests|] == requests;
    hide RunPipeline, Dispatch;
  }

  /**
   A stored text is exactly what the history of the pipeline says: kept from before or stored
   by a `store_sql` that was accepted, and since then not given up by a `close_sql`.
   */
  lemma {:induction false} StoredTextsAreTheHistory<S>(
    env: Env<S>, h: Here<S>, requests: seq<Request>, id: int32, sql: string)
    ensures var stored := RunPipeline(env, h, requests).here.stored;
      id in stored && stored[id] == sql <==> Holding(env, h, requests, id, sql)
    decreases |requests|
  {
    if requests == [] {
      NoneYet(env, h);
    } else {
      var before, last := requests[..|requests| - 1], requests[|requests| - 1];
      assert before + [last] == requests;
      StoredTextsAreTheHistory(env, h, before, id, sql);
      HoldingOneMore(env, h, before, last, id, sql);
      OneMore(env, h, before, last);
      DispatchStores(env, RunPipeline(env, h, before).here, last);
      hide RunPipeline, Dispatch, Holding;
    }
  }

  lemma HoldingOneMore<S>(env: Env<S>, h: Here<S>, requests: seq<Request>, last: Request, id: int32, sql: string)
    ensures Holding(env, h, requests + [last], id, sql) <==>
      if Close in requests then Holding(env, h, requests, id, sql)
      else if last == CloseSql(Some(id)) then false
      else Holding(env, h, requests, id, sql)
           || (last == StoreSql(Some(NewSql(id, sql))) && id !in RunPipeline(env, h, requests).here.stored)
  {
    var all, n := requests + [last], |requests|;
    forall k: nat
      ensures StoresAt(env, h, all, k, id, sql) <==>
        if k < n then StoresAt(env, h, requests, k, id, sql)
        else k == n && Close !in requests && last == StoreSql(Some(NewSql(id, sql)))
             && id !in RunPipeline(env, h, requests).here.stored
    {
      StoresOneMore(env, h, requests, last, k, id, sql);
    }
    forall from: nat | from <= n + 1
      ensures ClosedFrom(all, from, id) <==>
        ClosedFrom(requests, from, id) || (from <= n && Close !in requests && last == CloseSql(Some(id)))
    {
      ClosedOneMore(requests, last, from, id);
    }
    assert !ClosedFrom(requests, n + 1, id) && !ClosedFrom(requests, n, id);
    assert forall k: nat :: StoresAt(env, h, requests, k, id, sql) ==> k < n;
    hide RunPipeline, StoresAt, ClosedFrom;
    if last == StoreSql(Some(NewSql(id, sql))) && Close !in requests && id !in RunPipeline(env, h, requests).here.stored {
      assert StoresAt(env, h, all, n, id, sql) && !ClosedFrom(all, n + 1, id);
    }
    if Holding(env, h, requests, id, sql) && !(id in h.stored && h.stored[id] == sql && !ClosedFrom(requests, 0, id)) {
      var k: nat :| StoresAt(env, h, requests, k, id, sql) && !ClosedFrom(requests, k + 1, id);
      assert StoresAt(env, h, all, k, id, sql);
    }
  }

  /** A closed id is free: whatever was stored under it is not found any more, until it is stored again. */
  lemma ClosedTextIsGone<S>(env: Env<S>, h: Here<S>, a: seq<Request>, b: seq<Request>, id: int32)
    requires Close !in a && forall r :: r in b ==> !(r.StoreSql? && r.newSql.Some? && r.newSql.value.id == id)
    ensures id !in RunPipeline(env, h, a + [CloseSql(Some(id))] + b).here.stored
  {
    var all := a + [CloseSql(Some(id))] + b;
    var stored := RunPipeline(env, h, all).here.stored;
    assert all[..|a|] == a && all[|a|] == CloseSql(Some(id)) && Dispatched(all, |a|);
    assert forall from: nat :: from <= |a| ==> ClosedFrom(all, from, id);
    forall k: nat | |a| < k < |all| ensures all[k] in b { assert all[k] == b[k - |a| - 1]; }
    if id in stored { StoredTextsAreTheHistory(env, h, all, id, stored[id]); }
  }

  // ── The texts that run ──

  predicate NamedBy(text: SqlRef, stored: map<int32, string>, sql: string) {
    Names(text.sql, text.sqlId, stored, sql)
  }

  lemma StreamTextIsResolved(text: SqlRef, stored: map<int32, string>, sql: string)
    ensures ResolveStreamSql(text, stored) == Ok(sql) <==> NamedBy(text, stored, sql)
  {
  }

  /** The request with every stored id replaced by the text stored under it. */
  function Spelled(stmt: Stmt, stored: map<int32, string>): Stmt {
    if stmt.sql.None? && stmt.sqlId.Some? && stmt.sqlId.value in stored
    then stmt.(sql := Some(stored[stmt.sqlId.value]), sqlId := None)
    else stmt
  }

  function SpelledRef(text: SqlRef, stored: map<int32, string>): SqlRef {
    if text.sql.None? && text.sqlId.Some? && text.sqlId.value in stored
    then SqlRef(Some(stored[text.sqlId.value]), None)
    else text
  }

  function SpelledSteps(steps: seq<Step>, stored: map<int32, string>): seq<Step> {
    seq(|steps|, i requires 0 <= i < |steps| => steps[i].(stmt := Spelled(steps[i].stmt, stored)))
  }

  function SpelledRequest(request: Request, stored: map<int32, string>): Request {
    match request
    case Execute(Some(stmt)) => Execute(Some(Spelled(stmt, stored)))
    case Batch(Some(steps)) => Request.Batch(Some(SpelledSteps(steps, stored)))
    case Sequence(Some(script)) => Sequence(Some(SpelledRef(script, stored)))
    case Describe(Some(text)) => Describe(Some(SpelledRef(text, stored)))
    case _ => request
  }

  lemma SpelledStmtRuns<S>(env: Env<S>, state: S, stmt: Stmt)
    ensures RunStmt(env, state, Spelled(stmt, env.stored)) == RunStmt(env, state, stmt)
  {
  }

  lemma {:induction false} SpelledBatchRuns<S>(env: Env<S>, steps: seq<Step>, state: S, upTo: nat)
    requires upTo <= |steps|
    ensures BatchUpTo(env, SpelledSteps(steps, env.stored), state, upTo) == BatchUpTo(env, steps, state, upTo)
  {
    hide EvalCond, RunStmt, Spelled;
    if upTo > 0 {
      assert SpelledSteps(steps, env.stored)[upTo - 1].condition == steps[upTo - 1].condition;
      SpelledBatchRuns(env, steps, state, upTo - 1);
      SpelledStmtRuns(env, BatchUpTo(env, steps, state, upTo - 1).state, steps[upTo - 1].stmt);
    }
  }

  /** Wherever a request names a stored text, it does what it would with the text itself. */
  lemma StoredTextIsUsed<S>(env: Env<S>, h: Here<S>, request: Request)
    ensures Dispatch(env, h, SpelledRequest(request, h.stored)) == Dispatch(env, h, request)
  {
    var here := env.(stored := h.stored);
    match request
    case Execute(Some(stmt)) => SpelledStmtRuns(here, h.state, stmt); hide RunStmt;
    case Batch(Some(steps)) => SpelledBatchRuns(here, steps, h.state, |steps|); hide BatchUpTo;
    case _ => hide RunStmt, RunBatch, Streams.RunSequence;
  }

  // ── The calls that are made ──

  /** A state that keeps a log of the calls. */
  datatype Logged<S> = Logged(state: S, calls: seq<Call>)

  function Log<S>(s: Logged<S>, call: Call, state: S): Logged<S> {
    Logged(state, s.calls + [call])
  }

  /** The same database with every call written down. */
  function Logging<S>(env: Env<S>): Env<Logged<S>> {
    Env((s: Logged<S>, sql, args) =>
          (Log(s, ExecCall(sql, args), env.exec(s.state, sql, args).0), env.exec(s.state, sql, args).1),
        (s: Logged<S>, sql, args) =>
          (Log(s, QueryCall(sql, args), env.query(s.state, sql, args).0), env.query(s.state, sql, args).1),
        env.readonly, env.isWrite, env.stored)
  }

  /** The calls a run says that it makes are the calls the database sees. */
  ghost predicate Sees<S, T>(s: Logged<S>, ran: Ran<S, T>, logged: Ran<Logged<S>, T>) {
    logged == Ran(Logged(ran.state, s.calls + ran.calls), ran.outcome, ran.calls)
  }

  lemma StmtIsSeen<S>(env: Env<S>, s: Logged<S>, stmt: Stmt)
    ensures Sees(s, RunStmt(env, s.state, stmt), RunStmt(Logging(env), s, stmt))
  {
    hide BuildArgs, ResolveSql, QueryOutcome, ExecOutcome;
    assert s.calls + [] == s.calls;
  }

  lemma {:induction false} BatchIsSeen<S>(env: Env<S>, steps: seq<Step>, s: Logged<S>, upTo: nat)
    requires upTo <= |steps|
    ensures var b := BatchUpTo(env, steps, s.state, upTo);
      BatchUpTo(Logging(env), steps, s, upTo) ==
        Executor.Batch(Logged(b.state, s.calls + b.calls), b.results, b.errors, b.calls, b.failure)
  {
    hide Holds, RunStmt;
    if upTo == 0 {
      assert s.calls + [] == s.calls;
    } else {
      BatchIsSeen(env, steps, s, upTo - 1);
      var b := BatchUpTo(env, steps, s.state, upTo - 1);
      var ran := RunStmt(env, b.state, steps[upTo - 1].stmt);
      StmtIsSeen(env, Logged(b.state, s.calls + b.calls), steps[upTo - 1].stmt);
      assert s.calls + b.calls + ran.calls == s.calls + (b.calls + ran.calls);
    }
  }

  lemma {:induction false} PiecesAreSeen<S>(env: Env<S>, s: Logged<S>, pieces: seq<string>)
    ensures Sees(s, Streams.RunPieces(env, s.state, pieces), Streams.RunPieces(Logging(env), s, pieces))
    decreases pieces
  {
    hide Streams.TrimSpace;
    assert s.calls + [] == s.calls;
    if pieces != [] {
      var sql := Streams.TrimSpace(pieces[0]);
      PiecesAreSeen(env, s, pieces[1..]);
      var after := Log(s, ExecCall(sql, []), env.exec(s.state, sql, []).0);
      PiecesAreSeen(env, after, pieces[1..]);
      var rest := Streams.RunPieces(env, after.state, pieces[1..]);
      assert s.calls + [ExecCall(sql, [])] + rest.calls == s.calls + ([ExecCall(sql, [])] + rest.calls);
    }
  }

  /** The calls one request makes. */
  function CallsBy<S>(env: Env<S>, h: Here<S>, request: Request): seq<Call> {
    var here := env.(stored := h.stored);
    match request
    case Execute(Some(stmt)) => RunStmt(here, h.state, stmt).calls
    case Batch(Some(steps)) => RunBatch(here, steps, h.state).calls
    case Sequence(Some(script)) =>
      var text := ResolveStreamSql(script, h.stored);
      if text.Ok? then Streams.RunSequence(here, h.state, text.value).calls else []
    case Describe(Some(text)) =>
      var sql := ResolveStreamSql(text, h.stored);
      if sql.Ok? then [QueryCall(sql.value, [])] else []
    case _ => []
  }

  lemma DispatchIsSeen<S>(env: Env<S>, s: Logged<S>, stored: map<int32, string>, request: Request)
    ensures var (h, result) := Dispatch(env, Here(s.state, stored), request);
      Dispatch(Logging(env), Here(s, stored), request) ==
        (Here(Logged(h.state, s.calls + CallsBy(env, Here(s.state, stored), request)), h.stored), result)
  {
    var here := env.(stored := stored);
    assert Logging(env).(stored := stored) == Logging(here);
    assert s.calls + [] == s.calls;
    hide ResolveStreamSql;
    match request
    case Execute(Some(stmt)) => StmtIsSeen(here, s, stmt); hide RunStmt;
    case Batch(Some(steps)) => BatchIsSeen(here, steps, s, |steps|); hide BatchUpTo;
    case Sequence(Some(script)) =>
      var text := ResolveStreamSql(script, stored);
      if text.Ok? { PiecesAreSeen(here, s, Streams.Split(text.value, ';')); }
      hide Streams.RunPieces;
    case _ => hide RunStmt, RunBatch, Streams.RunSequence;
  }

  /** The calls a pipeline makes, as the database sees them. */
  function Calls<S>(env: Env<S>, h: Here<S>, requests: seq<Request>): seq<Call> {
    RunPipeline(Logging(env), Here(Logged(h.state, []), h.stored), requests).here.state.calls
  }

  /** Writing the calls down changes nothing, and what is written are the calls of the requests that are dispatched. */
  lemma {:induction false} PipelineIsSeen<S>(env: Env<S>, h: Here<S>, requests: seq<Request>)
    ensures var o := RunPipeline(env, h, requests);
      var l := RunPipeline(Logging(env), Here(Logged(h.state, []), h.stored), requests);
      && l.results == o.results && l.closed == o.closed
      && l.here.stored == o.here.stored && l.here.state.state == o.here.state
    ensures requests != [] ==>
      var before, last := requests[..|requests| - 1], requests[|requests| - 1];
      Calls(env, h, requests) == Calls(env, h, before) +
        (if Close in before then [] else CallsBy(env, RunPipeline(env, h, before).here, last))
    decreases |requests|
  {
    var logged := Here(Logged(h.state, []), h.stored);
    if requests == [] {
      NoneYet(env, h);
      NoneYet(Logging(env), logged);
    } else {
      var before, last := requests[..|requests| - 1], requests[|requests| - 1];
      assert before + [last] == requests;
      PipelineIsSeen(env, h, before);
      OneMore(env, h, before, last);
      OneMore(Logging(env), logged, before, last);
      var l := RunPipeline(Logging(env), logged, before).here;
      DispatchIsSeen(env, l.state, l.stored, last);
      ClosedByAClose(env, h, requests, false);
      ClosedByAClose(Logging(env), logged, requests, false);
      hide RunPipeline, Dispatch, CallsBy, Logging;
      assert l == Here(Logged(l.state.state, l.state.calls), l.stored);
    }
  }

  /** What was written down before does not matter. */
  lemma {:induction false} LogGrows<S>(env: Env<S>, s: Logged<S>, stored: map<int32, string>, requests: seq<Request>)
    ensures var o := RunPipeline(env, Here(s.state, stored), requests);
      RunPipeline(Logging(env), Here(s, stored), requests).here ==
        Here(Logged(o.here.state, s.calls + Calls(env, Here(s.state, stored), requests)), o.here.stored)
    decreases |requests|
  {
    hide RunPipeline, Dispatch, CallsBy, Logging;
    var h := Here(s.state, stored);
    if requests == [] {
      NoneYet(env, h);
      NoneYet(Logging(env), Here(s, stored));
      NoneYet(Logging(env), Here(Logged(s.state, []), stored));
      assert s.calls + [] == s.calls;
    } else {
      var before, last := requests[..|requests| - 1], requests[|requests| - 1];
      assert before + [last] == requests;
      LogGrows(env, s, stored, before);
      OneMore(env, h, before, last);
      OneMore(Logging(env), Here(s, stored), before, last);
      var l := RunPipeline(Logging(env), Here(s, stored), before).here;
      DispatchIsSeen(env, l.state, l.stored, last);
      PipelineIsSeen(env, h, requests);
      hide Calls;
      var calls, more := Calls(env, h, before), CallsBy(env, RunPipeline(env, h, before).here, last);
      assert s.calls + calls + more == s.calls + (calls + more) && calls + [] == calls;
      assert l == Here(l.state, l.stored);
    }
  }

  // ── Readonly mode ──

  predicate Writes<S>(env: Env<S>, calls: seq<Call>) {
    exists c :: c in calls && env.isWrite(c.sql)
  }

  /** A description of a text that is a write: it asks the database to run it. */
  predicate DescribesAWrite<S>(env: Env<S>, h: Here<S>, request: Request) {
    && request.Describe? && request.text.Some?
    && var sql := ResolveStreamSql(request.text.value, h.stored);
       sql.Ok? && env.isWrite(sql.value)
  }

  lemma ReadonlyRequestWrites<S>(env: Env<S>, h: Here<S>, request: Request)
    requires env.readonly
    ensures Writes(env, CallsBy(env, h, request)) <==> DescribesAWrite(env, h, request)
  {
    var here := env.(stored := h.stored);
    match request
    case Execute(Some(stmt)) => OneCallOrNone(here, h.state, stmt); hide RunStmt;
    case Batch(Some(steps)) => BatchCursor.ReadonlyNeverWrites(here, steps, h.state, |steps|); hide RunStmt;
    case Sequence(Some(script)) =>
      var text := ResolveStreamSql(script, h.stored);
      if text.Ok? { ScriptLaws.ScriptRunsItsTexts(here, h.state, text.value); }
      hide Streams.RunSequence, ResolveStreamSql;
    case Describe(Some(text)) =>
      var sql := ResolveStreamSql(text, h.stored);
      if sql.Ok? { assert QueryCall(sql.value, []) in CallsBy(env, h, request); }
    case _ =>
  }

  /** Request k is dispatched, and describes a write. */
  ghost predicate DescribesAWriteAt<S>(env: Env<S>, h: Here<S>, requests: seq<Request>, k: nat) {
    Dispatched(requests, k) && DescribesAWrite(env, RunPipeline(env, h, requests[..k]).here, requests[k])
  }

  /**
   On a stream in readonly mode a pipeline makes a call that is a write exactly when it comes to
   a `describe` of one: statements, batches and scripts are guarded, descriptions are not.
   */
  lemma {:induction false} ReadonlyPipelineWrites<S>(env: Env<S>, h: Here<S>, requests: seq<Request>)
    requires env.readonly
    ensures Writes(env, Calls(env, h, requests)) <==> exists k: nat :: DescribesAWriteAt(env, h, requests, k)
    decreases |requests|
  {
    PipelineIsSeen(env, h, requests);
    if requests == [] {
      NoneYet(Logging(env), Here(Logged(h.state, []), h.stored));
    } else {
      var before, last := requests[..|requests| - 1], requests[|requests| - 1];
      var n := |before|;
      ReadonlyPipelineWrites(env, h, before);
      ReadonlyRequestWrites(env, RunPipeline(env, h, before).here, last);
      hide RunPipeline, CallsBy, Calls, DescribesAWrite;
      assert forall k :: 0 <= k <= n ==> requests[..k] == before[..k];
      assert before[..n] == before;
      assert forall k: nat :: k < n ==> DescribesAWriteAt(env, h, requests, k) == DescribesAWriteAt(env, h, before, k);
      assert DescribesAWriteAt(env, h, requests, n) <==>
        Close !in before && DescribesAWrite(env, RunPipeline(env, h, before).here, last);
      hide DescribesAWriteAt;
      if k: nat :| DescribesAWriteAt(env, h, before, k) { assert DescribesAWriteAt(env, h, requests, k); }
    }
  }

  /** So a readonly stream does write when it is asked to describe a write. */
  lemma ReadonlyDescribeWrites<S>(env: Env<S>, h: Here<S>, sql: string)
    requires env.readonly && env.isWrite(sql)
    ensures Writes(env, Calls(env, h, [Describe(Some(SqlRef(Some(sql), None)))]))
  {
    var requests := [Describe(Some(SqlRef(Some(sql), None)))];
    ReadonlyPipelineWrites(env, h, requests);
    hide RunPipeline, Calls;
    assert DescribesAWriteAt(env, h, requests, 0);
  }

  // ── What requests report ──

  function Executes(stmts: seq<Stmt>): seq<Request> {
    seq(|stmts|, i requires 0 <= i < |stmts| => Execute(Some(stmts[i])))
  }

  /** A statement's outcome as a result of a pipeline. */
  predicate Reports(result: Result<Response>, outcome: Result<StmtResult>) {
    match outcome
    case Ok(value) => result == Ok(Response.Executed(value))
    case Err(message) => result == Err(message)
  }

  /** A pipeline of `execute` requests runs its statements one after the other and reports every one of them. */
  lemma {:induction false} ExecutesAreAPlainRun<S>(env: Env<S>, h: Here<S>, stmts: seq<Stmt>)
    ensures var o, ran := RunPipeline(env, h, Executes(stmts)), RunAll(env.(stored := h.stored), h.state, stmts);
      && o.here == Here(ran.state, h.stored) && |o.results| == |ran.outcome| == |stmts|
      && forall k :: 0 <= k < |stmts| ==> Reports(o.results[k], ran.outcome[k])
    decreases |stmts|
  {
    hide RunStmt;
    if stmts == [] {
      assert Executes(stmts) == [];
      NoneYet(env, h);
    } else {
      var before, last := stmts[..|stmts| - 1], stmts[|stmts| - 1];
      assert before + [last] == stmts && Executes(stmts) == Executes(before) + [Execute(Some(last))];
      ExecutesAreAPlainRun(env, h, before);
      OneMore(env, h, Executes(before), Execute(Some(last)));
      RunAllSnoc(env.(stored := h.stored), h.state, before, last);
      hide RunPipeline, RunAll;
    }
  }

  /**
   A batch of steps without conditions, in one request, does to the database what its statements
   do in an `execute` request each, and reports the same outcomes in the slots of its steps.
   */
  lemma ABatchIsItsStatements<S>(env: Env<S>, h: Here<S>, steps: seq<Step>)
    requires forall i :: 0 <= i < |steps| ==> steps[i].condition.None?
    ensures var (here, result) := Dispatch(env, h, Request.Batch(Some(steps)));
      var o := RunPipeline(env, h, Executes(Stmts(steps, |steps|)));
      && here == o.here && result.Ok? && result.value.BatchDone?
      && |result.value.batch.results| == |result.value.batch.errors| == |steps| == |o.results|
      && forall k :: 0 <= k < |steps| ==> SlotReports(result.value.batch, k, o.results[k])
  {
    var here := env.(stored := h.stored);
    var b := RunBatch(here, steps, h.state);
    UnconditionalBatchRunsAll(here, steps, h.state);
    ExecutesAreAPlainRun(env, h, Stmts(steps, |steps|));
    var ran := RunAll(here, h.state, Stmts(steps, |steps|));
    hide RunAll, RunPipeline, BatchUpTo;
    var o := RunPipeline(env, h, Executes(Stmts(steps, |steps|)));
    forall k | 0 <= k < |steps| ensures SlotReports(Streams.BatchResult(b.results, b.errors), k, o.results[k]) {
      EverySlotIsFilled(here, steps, h.state, k);
    }
  }

  /** Slot k of a batch has the result or the error, and not the other. */
  predicate SlotReports(batch: Streams.BatchResult, k: nat, result: Result<Response>)
    requires k < |batch.results| == |batch.errors|
  {
    match result
    case Ok(response) => response.Executed? && batch.results[k] == Some(response.result) && batch.errors[k] == None
    case Err(message) => batch.results[k] == None && batch.errors[k] == Some(message)
  }

  lemma EverySlotIsFilled<S>(env: Env<S>, steps: seq<Step>, state: S, k: nat)
    requires k < |steps| && forall i :: 0 <= i < |steps| ==> steps[i].condition.None?
    ensures var b, ran := RunBatch(env, steps, state), RunAll(env, state, Stmts(steps, |steps|));
      k < |ran.outcome| &&
      match ran.outcome[k]
      case Ok(value) => b.results[k] == Some(value) && b.errors[k] == None
      case Err(message) => b.results[k] == None && b.errors[k] == Some(message)
  {
    var b := RunBatch(env, steps, state);
    UnconditionalBatchRunsAll(env, steps, state);
    forall i | 0 <= i < |steps| ensures b.results[i].Some? != b.errors[i].Some? {
      FilledSlot(env, steps, state, i);
    }
    hide RunAll, RunBatch, BatchUpTo;
    RecordedAt(b, |steps|, k);
  }

  lemma FilledSlot<S>(env: Env<S>, steps: seq<Step>, state: S, i: nat)
    requires i < |steps| && forall j :: 0 <= j < |steps| ==> steps[j].condition.None?
    ensures var b := RunBatch(env, steps, state); b.results[i].Some? != b.errors[i].Some?
  {
    UnconditionalUpTo(env, steps, state, i + 1);
    SlotAfterStep(env, steps, state, i);
    SlotIsFinal(env, steps, state, i);
    hide BatchUpTo, RunAll;
  }

  lemma {:induction false} RecordedAt<S>(b: Executor.Batch<S>, upTo: nat, k: nat)
    requires k < upTo <= |b.results| == |b.errors|
    requires forall i :: 0 <= i < upTo ==> b.results[i].Some? != b.errors[i].Some?
    ensures |Recorded(b, upTo)| == upTo
    ensures Recorded(b, upTo)[k] == if b.results[k].Some? then Ok(b.results[k].value) else Err(b.errors[k].value)
  {
    if upTo > 1 { RecordedAt(b, upTo - 1, if k < upTo - 1 then k else 0); } else { assert Recorded(b, 0) == []; }
  }

  /**
   The other requests that ask for something: a script is done exactly when all of it ran; a
   description tells the columns and the kind of a text the database takes, and nothing of one
   it does not; outside of these nothing happens to the database.
   */
  lemma RequestsReport<S>(env: Env<S>, h: Here<S>, request: Request, sql: string)
    ensures var (h', result) := Dispatch(env, h, request);
      var here := env.(stored := h.stored);
      && (request.Sequence? && request.script.Some? && NamedBy(request.script.value, h.stored, sql) ==>
            var ran := Streams.RunSequence(here, h.state, sql);
            && h'.state == ran.state
            && (result == Ok(SequenceDone) <==> ran.outcome.None?)
            && (result.Err? <==> ran.outcome.Some?) && (result.Err? ==> ran.outcome == Some(result.message)))
      && (request.Describe? && request.text.Some? && NamedBy(request.text.value, h.stored, sql) ==>
            && h'.state == env.query(h.state, sql, []).0
            && result.Ok? && Describes(result.value, sql, env.query(h.state, sql, []).1))
  {
    if request.Sequence? && request.script.Some? { StreamTextIsResolved(request.script.value, h.stored, sql); }
    if request.Describe? && request.text.Some? { StreamTextIsResolved(request.text.value, h.stored, sql); }
    hide RunStmt, RunBatch, Streams.RunSequence, ResolveStreamSql, NamedBy, Describes, DescribeReply;
    forall reply ensures Describes(DescribeReply(sql, reply), sql, reply) { ReplyDescribes(sql, reply); }
  }

  const READING := {"SELECT", "EXPLAIN", "PRAGMA", "WITH"}

  /** What a description says of a text and what the database answered. */
  predicate Describes(response: Response, sql: string, reply: QueryReply) {
    && response.Described?
    && response.cols == (if reply.Rows? then reply.cols else [])
    && (response.isExplain <==> reply.Rows? && Begins(Streams.TrimSpace(sql), "EXPLAIN"))
    && (response.isReadonly <==>
          reply.Rows? && exists word :: word in READING && Begins(Streams.TrimSpace(sql), word))
  }

  /** A text begins with a word, in letters of either case. */
  predicate Begins(text: string, word: string) {
    |word| <= |text| && forall i :: 0 <= i < |word| ==> IsLetter(text[i], word[i])
  }

  /** The letter itself, its small form, or one of the two letters beyond ASCII that have it as their capital. */
  predicate IsLetter(c: char, capital: char) {
    || c == capital || c as int == capital as int + 32
    || (capital == 'I' && c as int == 0x131) || (capital == 'S' && c as int == 0x17F)
  }

  lemma BeginsIsStartsWith(text: string, word: string)
    requires forall i :: 0 <= i < |word| ==> 'A' <= word[i] <= 'Z'
    ensures StartsWith(text, word) <==> Begins(text, word)
  {
    forall i | 0 <= i < |word| && i < |text| ensures Capital(text[i]) == word[i] <==> IsLetter(text[i], word[i]) {
      LetterIsCapital(text[i], word[i]);
    }
  }

  lemma LetterIsCapital(c: char, capital: char)
    requires 'A' <= capital <= 'Z'
    ensures Capital(c) == capital <==> IsLetter(c, capital)
  {
  }

  lemma ReplyDescribes(sql: string, reply: QueryReply)
    ensures Describes(DescribeReply(sql, reply), sql, reply)
  {
    var text := Streams.TrimSpace(sql);
    hide Streams.TrimSpace, StartsWith, Begins;
    BeginsIsStartsWith(text, "SELECT");
    BeginsIsStartsWith(text, "EXPLAIN");
    BeginsIsStartsWith(text, "PRAGMA");
    BeginsIsStartsWith(text, "WITH");
    assert "SELECT" in READING && "EXPLAIN" in READING && "PRAGMA" in READING && "WITH" in READING;
  }

  /** The other requests leave the database alone; one that lacks its payload, or is unknown, is an error. */
  lemma OthersAskNothing<S>(env: Env<S>, h: Here<S>, request: Request)
    ensures var (h', result) := Dispatch(env, h, request);
      && (Lacking(request) || request.Unknown? ==> h' == h && result.Err?)
      && (request == Close ==> h' == h && result == Ok(ClosedStream))
      && (request == GetAutocommit ==> h' == h && result == Ok(Autocommit(true)))
      && (request.StoreSql? || request.CloseSql? ==> h'.state == h.state)
      && (request.Sequence? && request.script.Some? && ResolveStreamSql(request.script.value, h.stored).Err? ==>
            h' == h && result.Err?)
      && (request.Describe? && request.text.Some? && ResolveStreamSql(request.text.value, h.stored).Err? ==>
            h' == h && result.Err?)
  {
  }

  predicate Lacking(request: Request) {
    || request == Execute(None) || request == Request.Batch(None) || request == Sequence(None)
    || request == Describe(None) || request == StoreSql(None) || request == CloseSql(None)
  }
}
