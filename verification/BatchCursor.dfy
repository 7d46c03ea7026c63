/**
 A batch and a cursor batch of the same steps: what the entries of the cursor say
 when they are decoded, against what the batch returns.
 */
module BatchCursor {
  import opened NativeTypes
  import opened Executor
  import opened Cursors
  import Conditions

  /** A cursor carries the affected count in 32 bits. */
  function Carried(result: StmtResult): StmtResult {
    result.(affected := result.affected % TWO_TO_THE_32, rowsWritten := result.rowsWritten % TWO_TO_THE_32)
  }

  function CarriedSlot(slot: Option<StmtResult>): Option<StmtResult> {
    if slot.Some? then Some(Carried(slot.value)) else None
  }

  /**
   What the batch says of a failed statement of which the cursor says `cursor`: that reading
   rows failed, and how, where the cursor only has the driver's words; and that a write is not
   permitted, where the cursor, which does not look, got as far as the arguments.
   */
  function BatchMessage<S>(env: Env<S>, state: S, stmt: Stmt, cursor: string): string {
    var sql, args := ResolveSql(stmt, env.stored), BuildArgs(stmt);
    if sql.Err? then cursor
    else if env.readonly && env.isWrite(sql.value) then READONLY
    else if args.Err? || !WantsRows(stmt) then cursor
    else match env.query(state, sql.value, args.value).1
      case QueryFailed(_) => cursor
      case Rows(_, rows, end) =>
        match EndOfRows(rows, end)
        case BadRow(_) => SCANNING + cursor
        case BadEnd(_) => ITERATING + cursor
        case Exhausted => cursor
  }

  /** A step failed in both or in neither, and the batch's message is the cursor's with what the batch adds. */
  predicate SameError<S>(env: Env<S>, steps: seq<Step>, state: S, k: nat, batch: Option<string>, cursor: Option<string>)
    requires k < |steps|
  {
    && batch.Some? == cursor.Some?
    && (batch.Some? ==>
          batch.value == BatchMessage(env, BatchUpTo(env, steps, state, k).state, steps[k].stmt, cursor.value))
  }

  /** The failure of a whole batch names the step at which it failed, the cursor has the reason alone. */
  ghost predicate SameFailure<S>(env: Env<S>, steps: seq<Step>, state: S, batch: Option<string>, cursor: Option<string>) {
    && batch.Some? == cursor.Some?
    && (batch.Some? ==>
          exists i: nat :: Conditions.FailsAt(env, steps, state, i, cursor.value) && batch.value == CondFailure(i, cursor.value))
  }

  /** A decoded cursor says the same of step k as the batch. */
  ghost predicate SaysTheSameAt<S>(env: Env<S>, steps: seq<Step>, state: S, b: Batch<S>, d: Decoded, k: nat)
    requires k < |d.results| == |d.errors| == |b.results| == |b.errors| == |steps|
  {
    d.results[k] == CarriedSlot(b.results[k]) && SameError(env, steps, state, k, b.errors[k], d.errors[k])
  }

  /** A decoded cursor says the same of every step, and of the whole, as the batch. */
  ghost predicate SaysTheSame<S>(env: Env<S>, steps: seq<Step>, state: S, b: Batch<S>, d: Decoded) {
    && |d.results| == |d.errors| == |b.results| == |b.errors| == |steps|
    && d.current.None?
    && SameFailure(env, steps, state, b.failure, d.failure)
    && forall k :: 0 <= k < |steps| ==> SaysTheSameAt(env, steps, state, b, d, k)
  }

  /** The two do the same to the database, call for call, and report the same. */
  ghost predicate Agree<S>(env: Env<S>, steps: seq<Step>, state: S, b: Batch<S>, c: CursorRun<S>) {
    && b.state == c.batch.state
    && b.calls == c.batch.calls
    && SaysTheSame(env, steps, state, b, Decode(c.entries, |steps|))
  }

  /** None of the calls writes, unless the stream may. */
  predicate Permitted<S>(env: Env<S>, calls: seq<Call>) {
    env.readonly ==> forall k :: 0 <= k < |calls| ==> !env.isWrite(calls[k].sql)
  }

  // ── One statement ──

  lemma DecodeExec(d: Decoded, i: uint32, affected: uint32, lastRowid: Option<int>)
    requires i < |d.results| && d.current.None?
    ensures DecodeOnto(d, [StepBegin(i, []), StepEnd(affected, lastRowid)]) ==
            d.(results := d.results[i := Some(StmtResult([], [], affected, lastRowid, 0, affected))])
  {
    hide DecodeOnto;
    var begin, end := StepBegin(i, []), StepEnd(affected, lastRowid);
    assert [begin, end] == [begin] + [end];
    DecodeInTurn(d, [begin], [end]);
    DecodeOne(d, begin);
    DecodeOne(DecodeEntry(d, begin), end);
  }

  lemma DecodeQuery(d: Decoded, i: uint32, cols: seq<Col>, rows: seq<seq<Value>>, last: Entry)
    requires i < |d.results| == |d.errors| && d.current.None?
    ensures DecodeOnto(d, [StepBegin(i, cols)] + RowEntries(rows) + [last]) ==
            DecodeEntry(d.(current := Some(OpenStep(i, cols, rows))), last)
  {
    hide DecodeOnto;
    var begin := StepBegin(i, cols);
    var d1 := DecodeEntry(d, begin);
    var d2 := d.(current := Some(OpenStep(i, cols, rows)));
    DecodeInTurn(d, [begin] + RowEntries(rows), [last]);
    DecodeInTurn(d, [begin], RowEntries(rows));
    DecodeOne(d, begin);
    DecodeRows(d1, rows);
    assert [] + rows == rows;
    DecodeOne(d2, last);
  }

  /** The decoder's account of one more step. */
  function Noted(d: Decoded, i: nat, outcome: Result<StmtResult>): (d': Decoded)
    requires i < |d.results| == |d.errors|
  {
    match outcome
    case Ok(result) => d.(results := d.results[i := Some(result)])
    case Err(message) => d.(errors := d.errors[i := Some(message)])
  }

  lemma {:induction false} RowsAreAllGood(cols: seq<Col>, rows: seq<RowReply>, end: Option<string>)
    ensures EndOfRows(rows, end).Exhausted? ==> |GoodRows(cols, rows)| == |rows|
  {
    if rows != [] { RowsAreAllGood(cols, rows[1..], end); }
  }

  ghost predicate OutcomesAgree(i: nat, d: Decoded, batch: Result<StmtResult>, cursor: CursorOutcome) {
    && i < |d.results| == |d.errors|
    && batch.Ok? == cursor.result.Ok?
    && DecodeOnto(d, cursor.entries) == Noted(d, i, if batch.Ok? then Ok(Carried(batch.value)) else cursor.result)
  }

  lemma ErrorsAgree(i: uint32, d: Decoded, batch: string, cursor: string)
    requires i < |d.results| == |d.errors| && d.current.None?
    ensures OutcomesAgree(i, d, Err(batch), CursorOutcome([StepError(i, cursor)], Err(cursor)))
  {
    hide DecodeOnto;
    DecodeOne(d, StepError(i, cursor));
  }

  lemma ExecsAgree(i: uint32, d: Decoded, reply: ExecReply)
    requires i < |d.results| == |d.errors| && d.current.None?
    ensures OutcomesAgree(i, d, ExecOutcome(reply), CursorExecOutcome(i, reply))
  {
    hide DecodeOnto;
    match reply
    case ExecFailed(message) => ErrorsAgree(i, d, message, message);
    case Executed(affected, lastId) =>
      DecodeExec(d, i, affected % TWO_TO_THE_32, RowidOf(lastId));
      assert affected % TWO_TO_THE_64 % TWO_TO_THE_32 == affected % TWO_TO_THE_32;
  }

  lemma QueriesAgree(i: uint32, d: Decoded, reply: QueryReply)
    requires i < |d.results| == |d.errors| && d.current.None?
    ensures OutcomesAgree(i, d, QueryOutcome(reply), CursorQueryOutcome(i, reply))
  {
    hide DecodeOnto;
    match reply
    case QueryFailed(message) => ErrorsAgree(i, d, message, message);
    case Rows(cols, rows, end) =>
      var good := GoodRows(cols, rows);
      RowsAreAllGood(cols, rows, end);
      match EndOfRows(rows, end)
      case BadRow(message) => DecodeQuery(d, i, cols, good, StepError(i, message));
      case BadEnd(message) => DecodeQuery(d, i, cols, good, StepError(i, message));
      case Exhausted => DecodeQuery(d, i, cols, good, StepEnd(0, None));
  }

  /** One statement, run for a batch and for a cursor that makes only permitted calls. */
  lemma StatementsAgree<S>(env: Env<S>, state: S, i: uint32, stmt: Stmt, d: Decoded)
    requires i < |d.results| == |d.errors| && d.current.None?
    requires Permitted(env, CursorStmt(env, state, i, stmt).calls)
    ensures var ran, cursor := RunStmt(env, state, stmt), CursorStmt(env, state, i, stmt);
      && ran.state == cursor.state && ran.calls == cursor.calls
      && OutcomesAgree(i, d, ran.outcome, cursor.outcome)
      && (ran.outcome.Err? && cursor.outcome.result.Err? ==>
            ran.outcome.message == BatchMessage(env, state, stmt, cursor.outcome.result.message))
  {
    var sql := ResolveSql(stmt, env.stored);
    var args := BuildArgs(stmt);
    MessagesMatch(env, state, i, stmt);
    hide DecodeOnto, OutcomesAgree, ExecOutcome, QueryOutcome, CursorExecOutcome, CursorQueryOutcome, ToRaw, BatchMessage;
    if sql.Err? {
      ErrorsAgree(i, d, sql.message, sql.message);
    } else if args.Err? {
      ErrorsAgree(i, d, args.message, args.message);
      ErrorsAgree(i, d, READONLY, args.message);
    } else if !WantsRows(stmt) {
      assert CursorStmt(env, state, i, stmt).calls[0].sql == sql.value;
      ExecsAgree(i, d, env.exec(state, sql.value, args.value).1);
    } else {
      assert CursorStmt(env, state, i, stmt).calls[0].sql == sql.value;
      QueriesAgree(i, d, env.query(state, sql.value, args.value).1);
    }
  }

  lemma MessagesMatch<S>(env: Env<S>, state: S, i: uint32, stmt: Stmt)
    ensures var ran, cursor := RunStmt(env, state, stmt).outcome, CursorStmt(env, state, i, stmt).outcome.result;
      ran.Err? && cursor.Err? && Permitted(env, CursorStmt(env, state, i, stmt).calls) ==>
        ran.message == BatchMessage(env, state, stmt, cursor.message)
  {
    hide GoodRows, EndOfRows, ToRaw;
    var sql, args := ResolveSql(stmt, env.stored), BuildArgs(stmt);
    if sql.Ok? && args.Ok? {
      assert CursorStmt(env, state, i, stmt).calls[0].sql == sql.value;
    }
  }

  // ── Whole batches ──

  /** After the same number of steps: the runs agree, and later conditions will see the same. */
  ghost predicate InStep<S>(env: Env<S>, steps: seq<Step>, state: S, b: Batch<S>, c: CursorRun<S>) {
    && Agree(env, steps, state, b, c)
    && Conditions.Alike(|steps|, b.results, b.errors, c.batch.results, c.batch.errors)
    && c.batch.failure == Decode(c.entries, |steps|).failure
  }

  lemma RecordingAgrees<S>(env: Env<S>, steps: seq<Step>, state: S, i: nat, b: Batch<S>, c: CursorRun<S>,
                           after: S, calls: seq<Call>, ran: Result<StmtResult>, cursor: CursorOutcome)
    requires i < |steps| && |b.results| == |b.errors| == |steps| && InStep(env, steps, state, b, c)
    requires OutcomesAgree(i, Decode(c.entries, |steps|), ran, cursor)
    requires ran.Err? && cursor.result.Err? ==>
      ran.message == BatchMessage(env, BatchUpTo(env, steps, state, i).state, steps[i].stmt, cursor.result.message)
    ensures InStep(env, steps, state, Record(b, i, after, calls, ran),
                   CursorRun(Record(c.batch, i, after, calls, cursor.result), c.entries + cursor.entries))
  {
    hide DecodeOnto, BatchMessage, SameFailure, BatchUpTo;
    var d := Decoded(seq(|steps|, _ => None), seq(|steps|, _ => None), None, None);
    DecodeInTurn(d, c.entries, cursor.entries);
    var b', d' := Record(b, i, after, calls, ran), Decode(c.entries + cursor.entries, |steps|);
    forall k | 0 <= k < |steps| ensures SaysTheSameAt(env, steps, state, b', d', k) {
      assert SaysTheSameAt(env, steps, state, b, Decode(c.entries, |steps|), k);
    }
  }

  lemma FailingAgrees<S>(env: Env<S>, steps: seq<Step>, state: S, i: nat, b: Batch<S>, c: CursorRun<S>, message: string)
    requires |b.results| == |b.errors| == |steps| && InStep(env, steps, state, b, c)
    requires Conditions.FailsAt(env, steps, state, i, message)
    ensures InStep(env, steps, state, b.(failure := Some(CondFailure(i, message))),
                   CursorRun(c.batch.(failure := Some(message)), c.entries + [Failure(message)]))
  {
    var d := Decoded(seq(|steps|, _ => None), seq(|steps|, _ => None), None, None);
    var b' := b.(failure := Some(CondFailure(i, message)));
    hide DecodeOnto, BatchMessage, BatchUpTo, Conditions.FailsAt, CondFailure;
    DecodeInTurn(d, c.entries, [Failure(message)]);
    DecodeOne(DecodeOnto(d, c.entries), Failure(message));
    var d' := Decode(c.entries + [Failure(message)], |steps|);
    forall k | 0 <= k < |steps| ensures SaysTheSameAt(env, steps, state, b', d', k) {
      assert SaysTheSameAt(env, steps, state, b, Decode(c.entries, |steps|), k);
    }
  }

  /** Calls made so far stay made, so what is permitted later was permitted before. */
  lemma PermittedBefore<S>(env: Env<S>, steps: seq<Step>, state: S, upTo: nat)
    requires 0 < upTo <= |steps| && Permitted(env, CursorUpTo(env, steps, state, upTo).batch.calls)
    ensures Permitted(env, CursorUpTo(env, steps, state, upTo - 1).batch.calls)
    ensures var c := CursorUpTo(env, steps, state, upTo - 1);
      c.batch.failure.None? && Holds(steps[upTo - 1], c.batch.results, c.batch.errors) == Ok(true) ==>
      Permitted(env, CursorStmt(env, c.batch.state, (upTo - 1) % TWO_TO_THE_32, steps[upTo - 1].stmt).calls)
  {
    hide CursorStmt, Holds;
    var before, after := CursorUpTo(env, steps, state, upTo - 1).batch.calls, CursorUpTo(env, steps, state, upTo).batch.calls;
    var c := CursorUpTo(env, steps, state, upTo - 1);
    var more := CursorStmt(env, c.batch.state, (upTo - 1) % TWO_TO_THE_32, steps[upTo - 1].stmt).calls;
    assert before == after || after == before + more;
    forall k | 0 <= k < |before| ensures before[k] == after[k] {}
    if after == before + more { forall k | 0 <= k < |more| ensures more[k] == after[|before| + k] {} }
  }

  lemma {:induction false} RunsStayInStep<S>(env: Env<S>, steps: seq<Step>, state: S, upTo: nat)
    requires upTo <= |steps| <= TWO_TO_THE_32
    requires Permitted(env, CursorUpTo(env, steps, state, upTo).batch.calls)
    ensures InStep(env, steps, state, BatchUpTo(env, steps, state, upTo), CursorUpTo(env, steps, state, upTo))
  {
    hide InStep, Permitted, BatchStep, CursorStep, CursorStmt, Holds;
    if upTo == 0 {
      NothingRunInStep(env, steps, state);
    } else {
      var i := upTo - 1;
      PermittedBefore(env, steps, state, upTo);
      RunsStayInStep(env, steps, state, i);
      var b, c := BatchUpTo(env, steps, state, i), CursorUpTo(env, steps, state, i);
      InStepSees(env, steps, state, i, b, c);
      if b.failure.None? { StepKeepsInStep(env, steps, state, i, c); }
    }
  }

  lemma NothingRunInStep<S>(env: Env<S>, steps: seq<Step>, state: S)
    ensures InStep(env, steps, state, BatchUpTo(env, steps, state, 0), CursorUpTo(env, steps, state, 0))
  {
    var b, d := BatchUpTo(env, steps, state, 0), Decode([], |steps|);
    assert d == Decoded(seq(|steps|, _ => None), seq(|steps|, _ => None), None, None);
    hide BatchMessage;
    forall k | 0 <= k < |steps| ensures SaysTheSameAt(env, steps, state, b, d, k) {}
  }

  lemma InStepSees<S>(env: Env<S>, steps: seq<Step>, state: S, i: nat, b: Batch<S>, c: CursorRun<S>)
    requires i < |steps| && InStep(env, steps, state, b, c)
    ensures b.state == c.batch.state && b.failure.Some? == c.batch.failure.Some?
    ensures |b.results| == |b.errors| == |c.batch.results| == |c.batch.errors| == |steps|
    ensures Holds(steps[i], b.results, b.errors) == Holds(steps[i], c.batch.results, c.batch.errors)
    ensures var d := Decode(c.entries, |steps|); d.current.None?
  {
    hide DecodeOnto, SaysTheSameAt, Conditions.FailsAt;
    if steps[i].condition.Some? {
      Conditions.ConditionSees(steps[i].condition.value, |steps|, b.results, b.errors, c.batch.results, c.batch.errors);
    }
  }

  lemma StepKeepsInStep<S>(env: Env<S>, steps: seq<Step>, state: S, i: nat, c: CursorRun<S>)
    requires i < |steps| <= TWO_TO_THE_32
    requires var b := BatchUpTo(env, steps, state, i); InStep(env, steps, state, b, c) && b.failure.None?
    requires |c.batch.results| == |c.batch.errors| == |steps|
    requires Holds(steps[i], c.batch.results, c.batch.errors) == Ok(true) ==>
      Permitted(env, CursorStmt(env, c.batch.state, i % TWO_TO_THE_32, steps[i].stmt).calls)
    ensures InStep(env, steps, state, BatchStep(env, steps, i, BatchUpTo(env, steps, state, i)), CursorStep(env, steps, i, c))
  {
    hide InStep, Permitted, Record, RunStmt, CursorStmt, OutcomesAgree, CondFailure, Decode, Holds, BatchUpTo, BatchMessage;
    var b := BatchUpTo(env, steps, state, i);
    InStepSees(env, steps, state, i, b, c);
    match Holds(steps[i], b.results, b.errors)
    case Err(message) => FailingAgrees(env, steps, state, i, b, c, message);
    case Ok(false) =>
    case Ok(true) =>
      var ran, cursor := RunStmt(env, b.state, steps[i].stmt), CursorStmt(env, b.state, i % TWO_TO_THE_32, steps[i].stmt);
      StatementsAgree(env, b.state, i, steps[i].stmt, Decode(c.entries, |steps|));
      RecordingAgrees(env, steps, state, i, b, c, ran.state, ran.calls, ran.outcome, cursor.outcome);
  }

  // ── The theorems ──

  /** On a readonly stream a batch never gets as far as a call that writes. */
  lemma {:induction false} ReadonlyNeverWrites<S>(env: Env<S>, steps: seq<Step>, state: S, upTo: nat)
    requires upTo <= |steps|
    ensures Permitted(env, BatchUpTo(env, steps, state, upTo).calls)
  {
    hide Holds, BuildArgs, ResolveSql, ExecOutcome, QueryOutcome;
    if upTo > 0 { ReadonlyNeverWrites(env, steps, state, upTo - 1); }
  }

  lemma AgreeExactlyWhenPermitted<S>(env: Env<S>, steps: seq<Step>, state: S)
    requires |steps| <= TWO_TO_THE_32
    ensures Agree(env, steps, state, RunBatch(env, steps, state), RunCursor(env, steps, state))
       <==> Permitted(env, RunCursor(env, steps, state).batch.calls)
  {
    hide SaysTheSame, Permitted, Decode;
    var b, c := RunBatch(env, steps, state), RunCursor(env, steps, state);
    if Permitted(env, c.batch.calls) {
      RunsStayInStep(env, steps, state, |steps|);
    } else {
      ReadonlyNeverWrites(env, steps, state, |steps|);
    }
  }

  /**
   The batch gets to step i, runs its statement, and is refused: the stream is readonly and
   the statement, which has a text and arguments that bind, is a write.
   */
  ghost predicate RefusedAt<S>(env: Env<S>, steps: seq<Step>, state: S, i: nat) {
    && i < |steps|
    && var b := BatchUpTo(env, steps, state, i);
      && b.failure.None? && Holds(steps[i], b.results, b.errors) == Ok(true)
      && IsForbidden(env, steps[i].stmt)
  }

  predicate IsForbidden<S>(env: Env<S>, stmt: Stmt) {
    var sql := ResolveSql(stmt, env.stored);
    env.readonly && sql.Ok? && env.isWrite(sql.value) && BuildArgs(stmt).Ok?
  }

  lemma ForbiddenIsNotPermitted<S>(env: Env<S>, state: S, i: uint32, stmt: Stmt)
    ensures Permitted(env, CursorStmt(env, state, i, stmt).calls) <==> !IsForbidden(env, stmt)
  {
    hide BuildArgs, ResolveSql, CursorExecOutcome, CursorQueryOutcome;
    var calls := CursorStmt(env, state, i, stmt).calls;
    if calls != [] { assert calls[0].sql == ResolveSql(stmt, env.stored).value; }
  }

  /** One more step makes a forbidden call exactly when it runs a forbidden statement, or one was made before. */
  lemma PermittedStep<S>(env: Env<S>, steps: seq<Step>, state: S, upTo: nat)
    requires 0 < upTo <= |steps|
    ensures var c := CursorUpTo(env, steps, state, upTo - 1);
      Permitted(env, CursorUpTo(env, steps, state, upTo).batch.calls) <==>
      && Permitted(env, c.batch.calls)
      && !(c.batch.failure.None? && Holds(steps[upTo - 1], c.batch.results, c.batch.errors) == Ok(true)
           && IsForbidden(env, steps[upTo - 1].stmt))
  {
    var c, c' := CursorUpTo(env, steps, state, upTo - 1), CursorUpTo(env, steps, state, upTo);
    ForbiddenIsNotPermitted(env, c.batch.state, (upTo - 1) % TWO_TO_THE_32, steps[upTo - 1].stmt);
    hide CursorStmt, Holds, IsForbidden;
    var more := CursorStmt(env, c.batch.state, (upTo - 1) % TWO_TO_THE_32, steps[upTo - 1].stmt).calls;
    PermittedParts(env, c.batch.calls, more);
  }

  lemma PermittedParts<S>(env: Env<S>, a: seq<Call>, b: seq<Call>)
    ensures Permitted(env, a + b) <==> Permitted(env, a) && Permitted(env, b)
  {
    forall k | 0 <= k < |a| ensures (a + b)[k] == a[k] {}
    forall k | 0 <= k < |b| ensures (a + b)[|a| + k] == b[k] {}
  }

  ghost predicate NeverRefused<S>(env: Env<S>, steps: seq<Step>, state: S, upTo: nat) {
    forall i :: 0 <= i < upTo ==> !RefusedAt(env, steps, state, i)
  }

  lemma {:induction false} PermittedExactlyWhenNeverRefused<S>(env: Env<S>, steps: seq<Step>, state: S, upTo: nat)
    requires upTo <= |steps| <= TWO_TO_THE_32
    ensures Permitted(env, CursorUpTo(env, steps, state, upTo).batch.calls) <==> NeverRefused(env, steps, state, upTo)
  {
    hide RefusedAt, Permitted, InStep, IsForbidden, Holds, CursorUpTo, BatchUpTo;
    if upTo == 0 {
      NothingCalled(env, steps, state);
    } else {
      var i := upTo - 1;
      assert NeverRefused(env, steps, state, upTo) <==> NeverRefused(env, steps, state, i) && !RefusedAt(env, steps, state, i);
      hide NeverRefused;
      PermittedExactlyWhenNeverRefused(env, steps, state, i);
      PermittedStep(env, steps, state, upTo);
      if Permitted(env, CursorUpTo(env, steps, state, i).batch.calls) {
        RunsStayInStep(env, steps, state, i);
        RefusalSeen(env, steps, state, i, CursorUpTo(env, steps, state, i));
      }
    }
  }

  lemma NothingCalled<S>(env: Env<S>, steps: seq<Step>, state: S)
    ensures Permitted(env, CursorUpTo(env, steps, state, 0).batch.calls)
  {
  }

  lemma RefusalSeen<S>(env: Env<S>, steps: seq<Step>, state: S, i: nat, c: CursorRun<S>)
    requires i < |steps| && InStep(env, steps, state, BatchUpTo(env, steps, state, i), c)
    ensures |c.batch.results| == |c.batch.errors| == |steps|
    ensures RefusedAt(env, steps, state, i) <==>
      c.batch.failure.None? && Holds(steps[i], c.batch.results, c.batch.errors) == Ok(true) && IsForbidden(env, steps[i].stmt)
  {
    hide InStep, IsForbidden, Holds, BatchUpTo;
    InStepSees(env, steps, state, i, BatchUpTo(env, steps, state, i), c);
  }

  /**
   A batch and a cursor batch of the same steps agree, in what they do to the database and in
   all that they report, exactly when no step of the batch comes to the guard that
   `executeBatchCursor` lacks: a write refused on a readonly stream.
   */
  lemma CursorAgreesExactlyWhenPermitted<S>(env: Env<S>, steps: seq<Step>, state: S)
    requires |steps| <= TWO_TO_THE_32
    ensures Agree(env, steps, state, RunBatch(env, steps, state), RunCursor(env, steps, state))
       <==> forall i :: 0 <= i < |steps| ==> !RefusedAt(env, steps, state, i)
  {
    hide Agree, RefusedAt, Permitted, CursorUpTo, BatchUpTo;
    AgreeExactlyWhenPermitted(env, steps, state);
    PermittedExactlyWhenNeverRefused(env, steps, state, |steps|);
  }

  /** Before the call: the stream may write, or none of the statements is a write. */
  predicate NothingToForbid<S>(env: Env<S>, steps: seq<Step>) {
    env.readonly ==> forall i :: 0 <= i < |steps| ==>
      var sql := ResolveSql(steps[i].stmt, env.stored); sql.Ok? ==> !env.isWrite(sql.value)
  }

  lemma {:induction false} NothingForbiddenHappens<S>(env: Env<S>, steps: seq<Step>, state: S, upTo: nat)
    requires upTo <= |steps| && NothingToForbid(env, steps)
    ensures Permitted(env, CursorUpTo(env, steps, state, upTo).batch.calls)
  {
    hide Holds, BuildArgs, ResolveSql, CursorExecOutcome, CursorQueryOutcome;
    if upTo > 0 {
      NothingForbiddenHappens(env, steps, state, upTo - 1);
      assert var sql := ResolveSql(steps[upTo - 1].stmt, env.stored); sql.Ok? && env.readonly ==> !env.isWrite(sql.value);
    }
  }

  /**
   What a client can count on: on a stream that may write, or with nothing to write, the
   decoded cursor has every column, row, rowid, error and skip of the batch, and its
   affected counts too wherever they fit in 32 bits.
   */
  lemma DecodedCursorIsTheBatch<S>(env: Env<S>, steps: seq<Step>, state: S)
    requires |steps| <= TWO_TO_THE_32 && NothingToForbid(env, steps)
    ensures var b, c := RunBatch(env, steps, state), RunCursor(env, steps, state);
      var d := Decode(c.entries, |steps|);
      && Agree(env, steps, state, b, c)
      && forall k :: 0 <= k < |steps| && (b.results[k].Some? ==> b.results[k].value.affected < TWO_TO_THE_32) ==>
        d.results[k] == b.results[k]
  {
    NothingForbiddenHappens(env, steps, state, |steps|);
    AgreeExactlyWhenPermitted(env, steps, state);
    forall k | 0 <= k < |steps| { AffectedIsWritten(env, steps, state, |steps|, k); }
    SmallCountsAreCarried(env, steps, state, RunBatch(env, steps, state), Decode(RunCursor(env, steps, state).entries, |steps|));
  }

  lemma SmallCountsAreCarried<S>(env: Env<S>, steps: seq<Step>, state: S, b: Batch<S>, d: Decoded)
    requires SaysTheSame(env, steps, state, b, d)
    requires forall k :: 0 <= k < |b.results| && b.results[k].Some? ==>
      b.results[k].value.rowsWritten == b.results[k].value.affected
    ensures forall k :: 0 <= k < |b.results| && (b.results[k].Some? ==> b.results[k].value.affected < TWO_TO_THE_32) ==>
      d.results[k] == b.results[k]
  {
    hide BatchMessage, BatchUpTo;
    forall k | 0 <= k < |b.results| && (b.results[k].Some? ==> b.results[k].value.affected < TWO_TO_THE_32)
      ensures d.results[k] == b.results[k]
    {
      assert SaysTheSameAt(env, steps, state, b, d, k);
    }
  }

  /** A result counts as written what it affected, or nothing. */
  lemma {:induction false} AffectedIsWritten<S>(env: Env<S>, steps: seq<Step>, state: S, upTo: nat, k: nat)
    requires k < |steps| && upTo <= |steps|
    ensures var slot := BatchUpTo(env, steps, state, upTo).results[k];
      slot.Some? ==> slot.value.rowsWritten == slot.value.affected
  {
    hide Holds, BuildArgs, ResolveSql, GoodRows, EndOfRows;
    if upTo > 0 { AffectedIsWritten(env, steps, state, upTo - 1, k); }
  }

  // ── A readonly stream ──

  datatype Table = Table(written: bool)

  function WriteTo(t: Table, sql: string, args: seq<Bound>): (Table, ExecReply) {
    (Table(true), Executed(1, 0))
  }

  function ReadFrom(t: Table, sql: string, args: seq<Bound>): (Table, QueryReply) {
    (t, Rows([], [], None))
  }

  /** The guard is missing: a batch is refused the write that a cursor batch of the same step makes. */
  lemma ReadonlyCursorWrites()
    ensures var env := Env(WriteTo, ReadFrom, true, _ => true, map[]);
      var steps := [Step(None, Stmt(Some("DELETE FROM t"), None, [], [], Some(false)))];
      !RunBatch(env, steps, Table(false)).state.written && RunCursor(env, steps, Table(false)).batch.state.written
  {
    var env := Env(WriteTo, ReadFrom, true, _ => true, map[]);
    var stmt := Stmt(Some("DELETE FROM t"), None, [], [], Some(false));
    var steps := [Step(None, stmt)];
    assert RunStmt(env, Table(false), stmt).state == Table(false);
    assert CursorStmt(env, Table(false), 0, stmt).state == Table(true);
    assert BatchUpTo(env, steps, Table(false), 0) == NewBatch(Table(false), 1);
    assert RunBatch(env, steps, Table(false)).state == Table(false);
    assert CursorUpTo(env, steps, Table(false), 0) == CursorRun(NewBatch(Table(false), 1), []);
  }

  // ── The form of the entries ──

  ghost predicate ReadsOn(r: Reader, i: nat, entries: seq<Entry>) {
    ReadOnto(r, entries) == Reader(i + 1, None, false)
  }

  lemma {:induction false} GoodRowsFit(cols: seq<Col>, rows: seq<RowReply>)
    ensures forall k :: 0 <= k < |GoodRows(cols, rows)| ==> |GoodRows(cols, rows)[k]| == |cols|
  {
    if rows != [] && rows[0].Fetched? { GoodRowsFit(cols, rows[1..]); }
  }

  lemma ReadQuery(next: nat, i: uint32, cols: seq<Col>, rows: seq<RowReply>, last: Entry)
    requires next <= i && (last.StepEnd? || (last.StepError? && last.step == i))
    ensures ReadsOn(Reader(next, None, false), i, [StepBegin(i, cols)] + RowEntries(GoodRows(cols, rows)) + [last])
  {
    var r, begin, good := Reader(next, None, false), StepBegin(i, cols), GoodRows(cols, rows);
    var within := Reader(i + 1, Some(|cols|), false);
    GoodRowsFit(cols, rows);
    ReadInTurn(r, [begin] + RowEntries(good), [last]);
    ReadInTurn(r, [begin], RowEntries(good));
    ReadOne(r, begin);
    ReadRows(within, good);
    ReadOne(within, last);
  }

  lemma ReadStatement<S>(env: Env<S>, state: S, next: nat, i: uint32, stmt: Stmt)
    requires next <= i
    ensures ReadsOn(Reader(next, None, false), i, CursorStmt(env, state, i, stmt).outcome.entries)
  {
    hide BuildArgs, ResolveSql, ReadOnto;
    var r, sql, args := Reader(next, None, false), ResolveSql(stmt, env.stored), BuildArgs(stmt);
    if sql.Err? {
      ReadOne(r, StepError(i, sql.message));
    } else if args.Err? {
      ReadOne(r, StepError(i, args.message));
    } else if !WantsRows(stmt) {
      match env.exec(state, sql.value, args.value).1
      case ExecFailed(message) => ReadOne(r, StepError(i, message));
      case Executed(affected, lastId) =>
        var begin, end := StepBegin(i, []), StepEnd(affected % TWO_TO_THE_32, RowidOf(lastId));
        assert [begin, end] == [begin] + [end];
        ReadInTurn(r, [begin], [end]);
        ReadOne(r, begin);
        ReadOne(ReadEntry(r, begin), end);
    } else {
      match env.query(state, sql.value, args.value).1
      case QueryFailed(message) => ReadOne(r, StepError(i, message));
      case Rows(cols, rows, end) =>
        match EndOfRows(rows, end)
        case BadRow(message) => ReadQuery(next, i, cols, rows, StepError(i, message));
        case BadEnd(message) => ReadQuery(next, i, cols, rows, StepError(i, message));
        case Exhausted => ReadQuery(next, i, cols, rows, StepEnd(0, None));
    }
  }

  lemma ReadNothing(r: Reader)
    ensures ReadOnto(r, []) == r
  {
  }

  /**
   Every cursor is a run of steps, each opened once and closed once by an end or an error
   of the same step, or a lone error, with rows as wide as the step's columns and steps in
   strictly increasing order; a failure of the whole comes last and only once.
   */
  lemma {:induction false} CursorIsWellFormed<S>(env: Env<S>, steps: seq<Step>, state: S, upTo: nat)
    requires upTo <= |steps| <= TWO_TO_THE_32
    ensures var c := CursorUpTo(env, steps, state, upTo);
      var r := ReadOnto(Reader(0, None, false), c.entries);
      r.Reader? && r.next <= upTo && r.width.None? && r.over == c.batch.failure.Some?
  {
    hide CursorStmt, Holds, ReadOnto;
    if upTo == 0 {
      ReadNothing(Reader(0, None, false));
    } else {
      CursorIsWellFormed(env, steps, state, upTo - 1);
      var c := CursorUpTo(env, steps, state, upTo - 1);
      var start, i := Reader(0, None, false), upTo - 1;
      var r := ReadOnto(start, c.entries);
      if c.batch.failure.None? {
        match Holds(steps[i], c.batch.results, c.batch.errors)
        case Err(message) =>
          ReadInTurn(start, c.entries, [Failure(message)]);
          ReadOne(r, Failure(message));
        case Ok(false) =>
        case Ok(true) =>
          var ran := CursorStmt(env, c.batch.state, i, steps[i].stmt);
          ReadInTurn(start, c.entries, ran.outcome.entries);
          ReadStatement(env, c.batch.state, r.next, i, steps[i].stmt);
      }
    }
  }

  // ── End to end ──

  /** Fetching with counts that are enough, whatever they are, and decoding all pages gives the batch. */
  lemma FetchedPagesAreTheBatch<S>(env: Env<S>, steps: seq<Step>, state: S,
                                   counts: seq<uint32>, pages: seq<seq<Entry>>, exhausted: seq<bool>)
    requires |steps| <= TWO_TO_THE_32 && NothingToForbid(env, steps)
    requires Pages(RunCursor(env, steps, state).entries, counts, pages, exhausted)
    requires counts != [] && exhausted[|counts| - 1]
    ensures SaysTheSame(env, steps, state, RunBatch(env, steps, state), Decode(Flatten(pages), |steps|))
  {
    hide SaysTheSame;
    var entries := RunCursor(env, steps, state).entries;
    assert PageIs(entries, counts, pages, exhausted, |counts| - 1);
    AllSoFar(entries, counts, pages, exhausted);
    assert counts[..|counts|] == counts && entries[..|entries|] == entries;
    DecodedCursorIsTheBatch(env, steps, state);
  }
}
