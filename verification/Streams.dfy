/**
 A stream running statements, batches, cursor batches and scripts on its
 connection, one step at a time, and the cursor that pages the entries of a
 cursor batch. Each method is proved equal to the function that specifies it.
 */
module Streams {
  import opened NativeTypes
  import opened Executor
  import opened StatementLaws

  // ── Scripts ──

  /** White space as Unicode has it. */
  predicate IsSpace(c: char) {
    var u := c as int;
    0x09 <= u <= 0x0D || u in {0x20, 0x85, 0xA0, 0x1680, 0x2028, 0x2029, 0x202F, 0x205F, 0x3000} || 0x2000 <= u <= 0x200A
  }

  function TrimLeft(s: string): string {
    if s != "" && IsSpace(s[0]) then TrimLeft(s[1..]) else s
  }

  function TrimRight(s: string): string {
    if s != "" && IsSpace(s[|s| - 1]) then TrimRight(s[..|s| - 1]) else s
  }

  function TrimSpace(s: string): string {
    TrimRight(TrimLeft(s))
  }

  /** The pieces of a text between separators, one more than there are separators. */
  function Split(text: string, separator: char): (pieces: seq<string>)
    ensures pieces != []
  {
    if text == "" then [""]
    else
      var rest := Split(text[1..], separator);
      if text[0] == separator then [""] + rest else [[text[0]] + rest[0]] + rest[1..]
  }

  /** Runs the pieces of a script in order, up to the first that fails. */
  function RunPieces<S>(env: Env<S>, state: S, pieces: seq<string>): Ran<S, Option<string>> {
    if pieces == [] then Ran(state, None, [])
    else
      var sql := TrimSpace(pieces[0]);
      if sql == "" then RunPieces(env, state, pieces[1..])
      else if env.readonly && env.isWrite(sql) then Ran(state, Some(READONLY), [])
      else
        var (after, reply) := env.exec(state, sql, []);
        if reply.ExecFailed? then Ran(after, Some("hrana: sequence error: " + reply.message), [ExecCall(sql, [])])
        else
          var rest := RunPieces(env, after, pieces[1..]);
          Ran(rest.state, rest.outcome, [ExecCall(sql, [])] + rest.calls)
  }

  function RunSequence<S>(env: Env<S>, state: S, text: string): Ran<S, Option<string>> {
    RunPieces(env, state, Split(text, ';'))
  }

  // ── The stream ──

  datatype BatchResult = BatchResult(results: seq<Option<StmtResult>>, errors: seq<Option<string>>)

  class Stream<S> {
    const env: Env<S>
    var state: S
    /** The database calls made so far. */
    ghost var calls: seq<Call>

    constructor (env: Env<S>, state: S)
      ensures this.env == env && this.state == state && calls == []
    {
      this.env, this.state, calls := env, state, [];
    }

    method Exec(sql: string, args: seq<Bound>) returns (reply: ExecReply)
      modifies this
      ensures (state, reply) == env.exec(old(state), sql, args)
      ensures calls == old(calls) + [ExecCall(sql, args)]
    {
      var after := env.exec(state, sql, args);
      state, reply, calls := after.0, after.1, calls + [ExecCall(sql, args)];
    }

    method Query(sql: string, args: seq<Bound>) returns (reply: QueryReply)
      modifies this
      ensures (state, reply) == env.query(old(state), sql, args)
      ensures calls == old(calls) + [QueryCall(sql, args)]
    {
      var after := env.query(state, sql, args);
      state, reply, calls := after.0, after.1, calls + [QueryCall(sql, args)];
    }

    method ExecuteStmt(stmt: Stmt) returns (outcome: Result<StmtResult>)
      modifies this
      ensures var ran := RunStmt(env, old(state), stmt);
        state == ran.state && outcome == ran.outcome && calls == old(calls) + ran.calls
    {
      var sql := ResolveSql(stmt, env.stored);
      if sql.Err? { return Err(sql.message); }
      if env.readonly && env.isWrite(sql.value) { return Err(READONLY); }
      var args := BuildArgs(stmt);
      if args.Err? { return Err(args.message); }
      if !WantsRows(stmt) {
        var reply := Exec(sql.value, args.value);
        match reply
        case ExecFailed(message) => return Err(message);
        case Executed(affected, lastId) =>
          return Ok(StmtResult([], [], affected % TWO_TO_THE_64, RowidOf(lastId), 0, affected % TWO_TO_THE_64));
      }
      var reply := Query(sql.value, args.value);
      match reply
      case QueryFailed(message) => return Err(message);
      case Rows(cols, rows, end) => outcome := ReadRows(cols, rows, end);
    }

    /** Reads every row of a query into a result. */
    static method ReadRows(cols: seq<Col>, rows: seq<RowReply>, end: Option<string>) returns (outcome: Result<StmtResult>)
      ensures outcome == QueryOutcome(Rows(cols, rows, end))
      ensures outcome.Ok? <==> AllFetched(rows, end)
      ensures outcome.Ok? ==>
        outcome.value.cols == cols && |outcome.value.rows| == |rows| && RowsShow(cols, outcome.value.rows, rows)
    {
      RowsAreReported(cols, rows, end);
      var resultRows: seq<seq<Value>>, rowsRead := [], 0;
      while rowsRead < |rows|
        invariant rowsRead <= |rows|
        invariant GoodRows(cols, rows) == resultRows + GoodRows(cols, rows[rowsRead..])
        invariant EndOfRows(rows, end) == EndOfRows(rows[rowsRead..], end)
        invariant |resultRows| == rowsRead
      {
        assert rows[rowsRead..][1..] == rows[rowsRead + 1..];
        var reply := rows[rowsRead];
        rowsRead := rowsRead + 1;
        if reply.ScanFailed? { return Err(SCANNING + reply.message); }
        resultRows := resultRows + [MakeRow(cols, reply.values)];
      }
      assert rows[rowsRead..] == [] && resultRows + [] == resultRows;
      if end.Some? { return Err(ITERATING + end.value); }
      return Ok(StmtResult(cols, resultRows, 0, None, rowsRead, 0));
    }

    method ExecuteBatch(steps: seq<Step>) returns (outcome: Result<BatchResult>)
      modifies this
      ensures var b := RunBatch(env, steps, old(state));
        && state == b.state && calls == old(calls) + b.calls
        && outcome == if b.failure.Some? then Err(b.failure.value) else Ok(BatchResult(b.results, b.errors))
    {
      hide RunStmt, CursorStmt, EvalCond, BatchUpTo, CursorUpTo;
      BatchStarts(env, steps, state);
      var stepResults := new Option<StmtResult>[|steps|](_ => None);
      var stepErrors := new Option<string>[|steps|](_ => None);
      for i := 0 to |steps|
        invariant var b := BatchUpTo(env, steps, old(state), i);
          && b.state == state && old(calls) + b.calls == calls && b.failure.None?
          && b.results == stepResults[..] && b.errors == stepErrors[..]
      {
        ghost var results, errors := stepResults[..], stepErrors[..];
        BatchAdvances(env, steps, old(state), i);
        AFailureLasts(env, steps, old(state), i + 1);
        var step := steps[i];
        if step.condition.Some? {
          var ok := EvalCond(step.condition.value, stepResults[..], stepErrors[..]);
          if ok.Err? { return Err(CondFailure(i, ok.message)); }
          if !ok.value { continue; }
        }
        var result := ExecuteStmt(step.stmt);
        match result
        case Err(message) =>
          stepErrors[i] := Some(message);
          assert stepErrors[..] == errors[i := Some(message)] && stepResults[..] == results;
        case Ok(value) =>
          stepResults[i] := Some(value);
          assert stepResults[..] == results[i := Some(value)] && stepErrors[..] == errors;
      }
      return Ok(BatchResult(stepResults[..], stepErrors[..]));
    }

    method ExecuteBatchCursor(steps: seq<Step>) returns (entries: seq<Entry>)
      modifies this
      ensures var c := RunCursor(env, steps, old(state));
        state == c.batch.state && calls == old(calls) + c.batch.calls && entries == c.entries
    {
      hide RunStmt, CursorStmt, EvalCond, BatchUpTo, CursorUpTo;
      CursorStarts(env, steps, state);
      var stepResults := new Option<StmtResult>[|steps|](_ => None);
      var stepErrors := new Option<string>[|steps|](_ => None);
      entries := [];
      for i := 0 to |steps|
        invariant var c := CursorUpTo(env, steps, old(state), i);
          && c.batch.state == state && old(calls) + c.batch.calls == calls && c.batch.failure.None?
          && c.batch.results == stepResults[..] && c.batch.errors == stepErrors[..]
          && c.entries == entries
      {
        ghost var results, errors := stepResults[..], stepErrors[..];
        CursorAdvances(env, steps, old(state), i);
        ACursorFailureLasts(env, steps, old(state), i + 1);
        var step, stepIdx := steps[i], i % TWO_TO_THE_32;
        if step.condition.Some? {
          var ok := EvalCond(step.condition.value, stepResults[..], stepErrors[..]);
          if ok.Err? { return entries + [Failure(ok.message)]; }
          if !ok.value { continue; }
        }
        var outcome := ExecuteCursorStmt(stepIdx, step.stmt);
        entries := entries + outcome.entries;
        match outcome.result
        case Err(message) =>
          stepErrors[i] := Some(message);
          assert stepErrors[..] == errors[i := Some(message)] && stepResults[..] == results;
        case Ok(value) =>
          stepResults[i] := Some(value);
          assert stepResults[..] == results[i := Some(value)] && stepErrors[..] == errors;
      }
    }

    /** The part of a cursor batch between a step's condition and the next step. */
    method ExecuteCursorStmt(stepIdx: uint32, stmt: Stmt) returns (outcome: CursorOutcome)
      modifies this
      ensures var ran := CursorStmt(env, old(state), stepIdx, stmt);
        state == ran.state && outcome == ran.outcome && calls == old(calls) + ran.calls
    {
      var sql := ResolveSql(stmt, env.stored);
      if sql.Err? { return CursorOutcome([StepError(stepIdx, sql.message)], Err(sql.message)); }
      var args := BuildArgs(stmt);
      if args.Err? { return CursorOutcome([StepError(stepIdx, args.message)], Err(args.message)); }
      if !WantsRows(stmt) {
        var reply := Exec(sql.value, args.value);
        match reply
        case ExecFailed(message) => return CursorOutcome([StepError(stepIdx, message)], Err(message));
        case Executed(affected, lastId) =>
          return CursorOutcome([StepBegin(stepIdx, []), StepEnd(affected % TWO_TO_THE_32, RowidOf(lastId))],
                               Ok(StmtResult([], [], affected % TWO_TO_THE_64, None, 0, 0)));
      }
      var reply := Query(sql.value, args.value);
      match reply
      case QueryFailed(message) => return CursorOutcome([StepError(stepIdx, message)], Err(message));
      case Rows(cols, rows, end) => outcome := StreamRows(stepIdx, cols, rows, end);
    }

    /** Emits the rows of a query one by one, then how they end. */
    static method StreamRows(stepIdx: uint32, cols: seq<Col>, rows: seq<RowReply>, end: Option<string>)
      returns (outcome: CursorOutcome)
      ensures outcome == CursorQueryOutcome(stepIdx, Rows(cols, rows, end))
      ensures outcome.result.Ok? <==> AllFetched(rows, end)
      ensures |outcome.entries| >= 2 && outcome.entries[0] == StepBegin(stepIdx, cols)
      ensures RowsShow(cols, RowsOf(outcome.entries[1..|outcome.entries| - 1]), rows)
      ensures outcome.result.Ok? ==> |outcome.entries| == |rows| + 2
    {
      hide RowsShow, RowsOf, AllFetched, CursorQueryOutcome, GoodRows, EndOfRows, RowEntries, MakeRow;
      var entries: seq<Entry>, rowsRead := [StepBegin(stepIdx, cols)], 0;
      var scanErr: Option<string> := None;
      while rowsRead < |rows| && scanErr.None?
        invariant rowsRead <= |rows|
        invariant scanErr.None? ==>
          && EndOfRows(rows, end) == EndOfRows(rows[rowsRead..], end)
          && entries + RowEntries(GoodRows(cols, rows[rowsRead..])) ==
             [StepBegin(stepIdx, cols)] + RowEntries(GoodRows(cols, rows))
        invariant scanErr.Some? ==>
          && EndOfRows(rows, end) == BadRow(scanErr.value)
          && entries == [StepBegin(stepIdx, cols)] + RowEntries(GoodRows(cols, rows))
        decreases |rows| - rowsRead
      {
        var reply := rows[rowsRead];
        NextRow(cols, rows[rowsRead..], end);
        assert rows[rowsRead..][1..] == rows[rowsRead + 1..];
        ghost var more := RowEntries(GoodRows(cols, rows[rowsRead + 1..]));
        assert reply.Fetched? ==> entries + ([Row(MakeRow(cols, reply.values))] + more) ==
                                  entries + [Row(MakeRow(cols, reply.values))] + more;
        rowsRead := rowsRead + 1;
        if reply.ScanFailed? {
          assert entries + [] == entries;
          scanErr := Some(reply.message);
        } else {
          entries := entries + [Row(MakeRow(cols, reply.values))];
        }
      }
      if scanErr.None? {
        assert rows[rowsRead..] == [] && entries + [] == entries;
        NoRows(cols, end);
      }
      if scanErr.Some? || end.Some? {
        var message := if scanErr.Some? then scanErr.value else end.value;
        outcome := CursorOutcome(entries + [StepError(stepIdx, message)], Err(message));
      } else {
        outcome := CursorOutcome(entries + [StepEnd(0, None)], Ok(StmtResult([], [], 0, None, rowsRead, 0)));
      }
      StreamedAre(stepIdx, cols, rows, end);
      RowsAreStreamed(stepIdx, cols, rows, end);
    }

    method ExecuteSequence(text: string) returns (failure: Option<string>)
      modifies this
      ensures var ran := RunSequence(env, old(state), text);
        state == ran.state && failure == ran.outcome && calls == old(calls) + ran.calls
    {
      hide TrimSpace, Split;
      var pieces := Split(text, ';');
      ghost var whole := RunPieces(env, state, pieces);
      for i := 0 to |pieces|
        invariant var rest := RunPieces(env, state, pieces[i..]);
          whole.state == rest.state && whole.outcome == rest.outcome && old(calls) + whole.calls == calls + rest.calls
      {
        PieceFirst(pieces, i);
        var sql := TrimSpace(pieces[i]);
        if sql == "" { continue; }
        if env.readonly && env.isWrite(sql) { return Some(READONLY); }
        var reply := Exec(sql, []);
        if reply.ExecFailed? { return Some("hrana: sequence error: " + reply.message); }
      }
      return None;
    }
  }

  lemma NoRows(cols: seq<Col>, end: Option<string>)
    ensures RowEntries(GoodRows(cols, [])) == []
    ensures EndOfRows([], end) == if end.Some? then BadEnd(end.value) else Exhausted
  {
  }

  /** One row of what is left: the last if it cannot be scanned. */
  lemma NextRow(cols: seq<Col>, rows: seq<RowReply>, end: Option<string>)
    requires rows != []
    ensures rows[0].ScanFailed? ==>
      RowEntries(GoodRows(cols, rows)) == [] && EndOfRows(rows, end) == BadRow(rows[0].message)
    ensures rows[0].Fetched? ==>
      && RowEntries(GoodRows(cols, rows)) == [Row(MakeRow(cols, rows[0].values))] + RowEntries(GoodRows(cols, rows[1..]))
      && EndOfRows(rows, end) == EndOfRows(rows[1..], end)
  {
    hide MakeRow;
  }

  lemma StreamedAre(stepIdx: uint32, cols: seq<Col>, rows: seq<RowReply>, end: Option<string>)
    ensures var read := [StepBegin(stepIdx, cols)] + RowEntries(GoodRows(cols, rows));
      var outcome := CursorQueryOutcome(stepIdx, Rows(cols, rows, end));
      match EndOfRows(rows, end)
      case BadRow(message) => outcome == CursorOutcome(read + [StepError(stepIdx, message)], Err(message))
      case BadEnd(message) => outcome == CursorOutcome(read + [StepError(stepIdx, message)], Err(message))
      case Exhausted => outcome == CursorOutcome(read + [StepEnd(0, None)], Ok(StmtResult([], [], 0, None, |rows|, 0)))
  {
    hide GoodRows, EndOfRows, RowEntries;
  }

  lemma PieceFirst<T>(pieces: seq<T>, i: nat)
    requires i < |pieces|
    ensures pieces[i..] != [] && pieces[i..][0] == pieces[i] && pieces[i..][1..] == pieces[i + 1..]
  {
  }

  lemma BatchStarts<S>(env: Env<S>, steps: seq<Step>, state: S)
    ensures BatchUpTo(env, steps, state, 0) == NewBatch(state, |steps|)
  {
  }

  lemma BatchAdvances<S>(env: Env<S>, steps: seq<Step>, state: S, i: nat)
    requires i < |steps|
    ensures var b := BatchUpTo(env, steps, state, i);
      b.failure.None? ==> BatchUpTo(env, steps, state, i + 1) == BatchStep(env, steps, i, b)
  {
    hide BatchStep;
  }

  lemma CursorStarts<S>(env: Env<S>, steps: seq<Step>, state: S)
    ensures CursorUpTo(env, steps, state, 0) == CursorRun(NewBatch(state, |steps|), [])
  {
  }

  lemma CursorAdvances<S>(env: Env<S>, steps: seq<Step>, state: S, i: nat)
    requires i < |steps|
    ensures var c := CursorUpTo(env, steps, state, i);
      c.batch.failure.None? ==> CursorUpTo(env, steps, state, i + 1) == CursorStep(env, steps, i, c)
  {
    hide CursorStep;
  }

  /** Once a batch has failed as a whole, the steps that remain add nothing. */
  lemma {:induction false} AFailureLasts<S>(env: Env<S>, steps: seq<Step>, state: S, upTo: nat)
    requires upTo <= |steps|
    ensures var b := BatchUpTo(env, steps, state, upTo); b.failure.Some? ==> RunBatch(env, steps, state) == b
    decreases |steps| - upTo
  {
    hide BatchStep;
    if upTo < |steps| { AFailureLasts(env, steps, state, upTo + 1); }
  }

  lemma {:induction false} ACursorFailureLasts<S>(env: Env<S>, steps: seq<Step>, state: S, upTo: nat)
    requires upTo <= |steps|
    ensures var c := CursorUpTo(env, steps, state, upTo); c.batch.failure.Some? ==> RunCursor(env, steps, state) == c
    decreases |steps| - upTo
  {
    hide CursorStep;
    if upTo < |steps| { ACursorFailureLasts(env, steps, state, upTo + 1); }
  }

  // ── Scripts, composed ──

  /** The pieces hold no separator and put together again they are the text. */
  lemma {:induction false} SplitLosesNothing(text: string, separator: char)
    ensures Join(Split(text, separator), separator) == text
    ensures forall k :: 0 <= k < |Split(text, separator)| ==> separator !in Split(text, separator)[k]
  {
    if text != "" {
      SplitLosesNothing(text[1..], separator);
      SplitConses(text, separator);
      hide Split;
      ConsedJoins(text[0], separator, Split(text[1..], separator));
      assert [text[0]] + text[1..] == text;
    }
  }

  lemma ConsedJoins(c: char, separator: char, pieces: seq<string>)
    requires pieces != [] && forall k :: 0 <= k < |pieces| ==> separator !in pieces[k]
    ensures Join(Consed(c, separator, pieces), separator) == [c] + Join(pieces, separator)
    ensures forall k :: 0 <= k < |Consed(c, separator, pieces)| ==> separator !in Consed(c, separator, pieces)[k]
  {
    if c == separator {
      assert ([""] + pieces)[1..] == pieces;
    } else {
      var head := [c] + pieces[0];
      assert ([head] + pieces[1..])[1..] == pieces[1..];
      if |pieces| > 1 { Regrouped(c, pieces[0], separator, Join(pieces[1..], separator)); }
    }
  }

  lemma Regrouped(c: char, piece: string, separator: char, rest: string)
    ensures ([c] + piece) + [separator] + rest == [c] + (piece + [separator] + rest)
  {
  }

  /** Splitting a text at a separator in it splits the parts before and after it. */
  lemma {:induction false} SplitAtSeparator(a: string, b: string, separator: char)
    ensures Split(a + [separator] + b, separator) == Split(a, separator) + Split(b, separator)
  {
    var text := a + [separator] + b;
    if a == "" {
      assert text[0] == separator && text[1..] == b;
    } else {
      assert text[0] == a[0] && text[1..] == a[1..] + [separator] + b;
      SplitAtSeparator(a[1..], b, separator);
      SplitConses(text, separator);
      SplitConses(a, separator);
      hide Split;
      ConsDistributes(a[0], separator, Split(a[1..], separator), Split(b, separator));
    }
  }

  /** A character goes before the pieces of the rest: as an empty piece, or at the front of the first. */
  function Consed(c: char, separator: char, pieces: seq<string>): seq<string>
    requires pieces != []
  {
    if c == separator then [""] + pieces else [[c] + pieces[0]] + pieces[1..]
  }

  lemma SplitConses(text: string, separator: char)
    requires text != ""
    ensures Split(text, separator) == Consed(text[0], separator, Split(text[1..], separator))
  {
  }

  lemma ConsDistributes(c: char, separator: char, p: seq<string>, q: seq<string>)
    requires p != []
    ensures Consed(c, separator, p + q) == Consed(c, separator, p) + q
  {
    assert (p + q)[1..] == p[1..] + q;
  }

  lemma {:induction false} PiecesInTurn<S>(env: Env<S>, state: S, p: seq<string>, q: seq<string>)
    ensures var first := RunPieces(env, state, p);
      var second := RunPieces(env, first.state, q);
      RunPieces(env, state, p + q) ==
      if first.outcome.Some? then first else Ran(second.state, second.outcome, first.calls + second.calls)
  {
    hide TrimSpace;
    if p == [] {
      assert p + q == q;
    } else {
      var sql := TrimSpace(p[0]);
      assert (p + q)[1..] == p[1..] + q;
      PiecesInTurn(env, state, p[1..], q);
      PiecesInTurn(env, env.exec(state, sql, []).0, p[1..], q);
    }
  }

  /** Running `a;b` is running `a` and then, if it succeeded, `b`: same state, same failure, same calls. */
  lemma SequencesCompose<S>(env: Env<S>, state: S, a: string, b: string)
    ensures var first := RunSequence(env, state, a);
      var second := RunSequence(env, first.state, b);
      RunSequence(env, state, a + ";" + b) ==
      if first.outcome.Some? then first else Ran(second.state, second.outcome, first.calls + second.calls)
  {
    SplitAtSeparator(a, b, ';');
    PiecesInTurn(env, state, Split(a, ';'), Split(b, ';'));
  }
}
