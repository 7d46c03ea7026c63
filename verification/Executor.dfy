/**
 Statements, batches and cursor batches on one stream. The functions say what a
 run does to the database and what it reports; the methods of `Stream` do it step
 by step, as loops over result arrays and an entry list, and are proved equal.
 */
module Executor {
  import opened NativeTypes

  const TWO_TO_THE_64 := 0x1_0000_0000_0000_0000

  datatype Result<+T> = Ok(value: T) | Err(message: string)

  /** A protocol value, `Null` also when it has no tag; `Unknown` has a tag the server does not know, here as quoted. */
  datatype Value = Null | Integer(i: int) | Float(f: real) | Text(s: string) | Blob(b: string) | Unknown(quoted: string)

  /** A value as the database driver takes and returns it. */
  datatype Raw =
    | RawNull | RawInt(i: int) | RawFloat(f: real) | RawText(s: string) | RawBlob(b: string) | RawBool(t: bool)
    | RawOther(shown: string)

  datatype NamedArg = NamedArg(name: string, value: Value)

  datatype Stmt = Stmt(
    sql: Option<string>, sqlId: Option<int32>, args: seq<Value>, namedArgs: seq<NamedArg>, wantRows: Option<bool>)

  datatype Bound = Positional(value: Raw) | Named(name: string, value: Raw)

  datatype Col = Col(name: string, decltype: Option<string>)

  datatype StmtResult = StmtResult(
    cols: seq<Col>, rows: seq<seq<Value>>, affected: nat, lastRowid: Option<int>, rowsRead: nat, rowsWritten: nat)

  /** A condition as it arrives: a tag, and whichever fields the sender filled in. */
  datatype Cond = Cond(typ: string, step: Option<uint32>, cond: Option<Cond>, conds: seq<Cond>)

  datatype Step = Step(condition: Option<Cond>, stmt: Stmt)

  datatype Entry =
    | StepBegin(step: uint32, cols: seq<Col>)
    | Row(row: seq<Value>)
    | StepEnd(affected: uint32, lastRowid: Option<int>)
    | StepError(step: uint32, message: string)
    | Failure(message: string)

  // ── The database ──

  datatype ExecReply = ExecFailed(message: string) | Executed(affected: int, lastId: int)

  /** The next row, or the failure to scan it. */
  datatype RowReply = Fetched(values: seq<Raw>) | ScanFailed(message: string)

  /** The rows of a query, and the error its iteration ends in, if any. */
  datatype QueryReply = QueryFailed(message: string) | Rows(cols: seq<Col>, rows: seq<RowReply>, end: Option<string>)

  datatype Call = ExecCall(sql: string, args: seq<Bound>) | QueryCall(sql: string, args: seq<Bound>)

  /** What a stream runs against: any database over states S, its mode, and the SQL stored under ids. */
  datatype Env<!S> = Env(
    exec: (S, string, seq<Bound>) -> (S, ExecReply),
    query: (S, string, seq<Bound>) -> (S, QueryReply),
    readonly: bool,
    isWrite: string -> bool,
    stored: map<int32, string>)

  // ── Statements ──

  function ResolveSql(stmt: Stmt, stored: map<int32, string>): Result<string> {
    if stmt.sql.Some? && stmt.sqlId.Some? then Err("hrana: exactly one of sql and sql_id must be set in stmt")
    else if stmt.sql.Some? then Ok(stmt.sql.value)
    else if stmt.sqlId.Some? then
      if stmt.sqlId.value in stored then Ok(stored[stmt.sqlId.value])
      else Err("hrana: sql_id " + Decimal(stmt.sqlId.value) + " not found")
    else Err("hrana: one of sql or sql_id must be set in stmt")
  }

  function Decimal(n: int): string
    decreases if n < 0 then 1 - n else n
  {
    if n < 0 then "-" + Decimal(-n)
    else if n < 10 then ["0123456789"[n]]
    else Decimal(n / 10) + ["0123456789"[n % 10]]
  }

  function ToRaw(v: Value): Result<Raw> {
    match v
    case Null => Ok(RawNull)
    case Integer(i) => Ok(RawInt(i))
    case Float(f) => Ok(RawFloat(f))
    case Text(s) => Ok(RawText(s))
    case Blob(b) => Ok(RawBlob(b))
    case Unknown(quoted) => Err("hrana: unknown value type " + quoted)
  }

  function ToValue(r: Raw): Value {
    match r
    case RawNull => Null
    case RawInt(i) => Integer(i)
    case RawFloat(f) => Float(f)
    case RawText(s) => Text(s)
    case RawBlob(b) => Blob(b)
    case RawBool(t) => Integer(if t then 1 else 0)
    case RawOther(shown) => Text(shown)
  }

  /** The bare name of a parameter: one leading `:`, `@` or `$` is dropped. */
  function BareName(name: string): string {
    if name != "" && name[0] in ":@$" then name[1..] else name
  }

  function BindNamed(args: seq<NamedArg>): Result<seq<Bound>> {
    if args == [] then Ok([])
    else match ToRaw(args[0].value)
      case Err(message) => Err(message)
      case Ok(raw) => match BindNamed(args[1..])
        case Err(message) => Err(message)
        case Ok(rest) => Ok([Named(BareName(args[0].name), raw)] + rest)
  }

  function BindPositional(args: seq<Value>): Result<seq<Bound>> {
    if args == [] then Ok([])
    else match ToRaw(args[0])
      case Err(message) => Err(message)
      case Ok(raw) => match BindPositional(args[1..])
        case Err(message) => Err(message)
        case Ok(rest) => Ok([Positional(raw)] + rest)
  }

  function BuildArgs(stmt: Stmt): Result<seq<Bound>> {
    if |stmt.namedArgs| > 0 then BindNamed(stmt.namedArgs) else BindPositional(stmt.args)
  }

  /** What the driver is given reads back as what was sent, and only values of an unknown type are refused. */
  lemma ValuesReadBack(v: Value)
    ensures ToRaw(v).Ok? <==> !v.Unknown?
    ensures ToRaw(v).Ok? ==> ToValue(ToRaw(v).value) == v
  {
  }

  /** The arguments of a statement, in order; named ones hide positional ones, and lose their prefix. */
  lemma {:induction false} ArgsAreBound(stmt: Stmt, k: nat)
    requires BuildArgs(stmt).Ok?
    ensures var bound, named := BuildArgs(stmt).value, stmt.namedArgs != [];
      && |bound| == (if named then |stmt.namedArgs| else |stmt.args|)
      && (k < |bound| ==>
            if named then ToRaw(stmt.namedArgs[k].value) == Ok(bound[k].value)
                          && bound[k] == Named(BareName(stmt.namedArgs[k].name), bound[k].value)
            else ToRaw(stmt.args[k]) == Ok(bound[k].value) && bound[k] == Positional(bound[k].value))
    decreases |stmt.namedArgs|, |stmt.args|
  {
    hide ToRaw, BareName;
    if stmt.namedArgs != [] {
      if |stmt.namedArgs| == 1 {
        assert BindNamed(stmt.namedArgs[1..]) == Ok([]);
      } else {
        ArgsAreBound(stmt.(namedArgs := stmt.namedArgs[1..]), if k > 0 then k - 1 else 0);
      }
    } else if stmt.args != [] {
      ArgsAreBound(stmt.(args := stmt.args[1..]), if k > 0 then k - 1 else 0);
    }
  }

  /** The values a statement sends, the named ones if there are any. */
  function ValuesInUse(stmt: Stmt): seq<Value> {
    if stmt.namedArgs != [] then NamedValues(stmt.namedArgs) else stmt.args
  }

  function NamedValues(args: seq<NamedArg>): (values: seq<Value>)
    ensures |values| == |args| && forall k :: 0 <= k < |args| ==> values[k] == args[k].value
  {
    if args == [] then [] else [args[0].value] + NamedValues(args[1..])
  }

  predicate HasUnknown(values: seq<Value>) {
    values != [] && (values[0].Unknown? || HasUnknown(values[1..]))
  }

  lemma {:induction false} UnknownIsSomewhere(values: seq<Value>)
    ensures HasUnknown(values) <==> exists k :: 0 <= k < |values| && values[k].Unknown?
  {
    if values == [] {
    } else {
      UnknownIsSomewhere(values[1..]);
      assert forall k :: 0 < k < |values| ==> values[k] == values[1..][k - 1];
      if HasUnknown(values[1..]) {
        var k :| 0 <= k < |values[1..]| && values[1..][k].Unknown?;
        assert values[k + 1].Unknown?;
      }
    }
  }

  lemma {:induction false} PositionalRefused(args: seq<Value>)
    ensures BindPositional(args).Err? <==> HasUnknown(args)
  {
    if args == [] {
    } else {
      PositionalRefused(args[1..]);
    }
  }

  lemma {:induction false} NamedRefused(args: seq<NamedArg>)
    ensures BindNamed(args).Err? <==> HasUnknown(NamedValues(args))
  {
    if args == [] {
    } else {
      NamedRefused(args[1..]);
      assert NamedValues(args)[1..] == NamedValues(args[1..]);
    }
  }

  /** The arguments of a statement are refused exactly when a value in use is of an unknown type. */
  lemma ArgsAreRefused(stmt: Stmt)
    ensures BuildArgs(stmt).Err? <==> exists k :: 0 <= k < |ValuesInUse(stmt)| && ValuesInUse(stmt)[k].Unknown?
  {
    UnknownIsSomewhere(ValuesInUse(stmt));
    PositionalRefused(stmt.args);
    NamedRefused(stmt.namedArgs);
  }

  function WantsRows(stmt: Stmt): bool {
    stmt.wantRows.None? || stmt.wantRows.value
  }

  /** A scanned row has one value for every column. */
  function MakeRow(cols: seq<Col>, values: seq<Raw>): (row: seq<Value>)
    ensures |row| == |cols|
  {
    seq(|cols|, j requires 0 <= j < |cols| => if j < |values| then ToValue(values[j]) else Null)
  }

  /** The rows read until scanning fails or there are none left. */
  function GoodRows(cols: seq<Col>, rows: seq<RowReply>): seq<seq<Value>> {
    if rows == [] || rows[0].ScanFailed? then []
    else [MakeRow(cols, rows[0].values)] + GoodRows(cols, rows[1..])
  }

  datatype ScanEnd = Exhausted | BadRow(message: string) | BadEnd(message: string)

  /** How the reading of rows ends: a failed scan comes before the error of the iteration. */
  function EndOfRows(rows: seq<RowReply>, end: Option<string>): ScanEnd {
    if rows == [] then if end.Some? then BadEnd(end.value) else Exhausted
    else if rows[0].ScanFailed? then BadRow(rows[0].message)
    else EndOfRows(rows[1..], end)
  }

  function RowidOf(lastId: int): Option<int> {
    if lastId != 0 then Some(lastId) else None
  }

  /** What running a statement leaves: the database's state, the outcome, and the calls made. */
  datatype Ran<+S, +T> = Ran(state: S, outcome: T, calls: seq<Call>)

  const READONLY := "hrana: write operations are not permitted in readonly mode"
  const SCANNING := "hrana: scanning row: "
  const ITERATING := "hrana: iterating rows: "

  function ExecOutcome(reply: ExecReply): Result<StmtResult> {
    match reply
    case ExecFailed(message) => Err(message)
    case Executed(affected, lastId) =>
      Ok(StmtResult([], [], affected % TWO_TO_THE_64, RowidOf(lastId), 0, affected % TWO_TO_THE_64))
  }

  function QueryOutcome(reply: QueryReply): Result<StmtResult> {
    match reply
    case QueryFailed(message) => Err(message)
    case Rows(cols, rows, end) =>
      match EndOfRows(rows, end)
      case BadRow(message) => Err(SCANNING + message)
      case BadEnd(message) => Err(ITERATING + message)
      case Exhausted => Ok(StmtResult(cols, GoodRows(cols, rows), 0, None, |rows|, 0))
  }

  function RunStmt<S>(env: Env<S>, state: S, stmt: Stmt): Ran<S, Result<StmtResult>> {
    match ResolveSql(stmt, env.stored)
    case Err(message) => Ran(state, Err(message), [])
    case Ok(sql) =>
      if env.readonly && env.isWrite(sql) then Ran(state, Err(READONLY), [])
      else match BuildArgs(stmt)
        case Err(message) => Ran(state, Err(message), [])
        case Ok(args) =>
          if !WantsRows(stmt) then
            var (after, reply) := env.exec(state, sql, args);
            Ran(after, ExecOutcome(reply), [ExecCall(sql, args)])
          else
            var (after, reply) := env.query(state, sql, args);
            Ran(after, QueryOutcome(reply), [QueryCall(sql, args)])
  }

  // ── Conditions ──

  function EvalCond(c: Cond, results: seq<Option<StmtResult>>, errors: seq<Option<string>>): Result<bool> {
    match c.typ
    case "ok" =>
      if c.step.None? then Err("hrana: batch cond 'ok' missing step")
      else Ok(c.step.value < |results| && results[c.step.value].Some?)
    case "error" =>
      if c.step.None? then Err("hrana: batch cond 'error' missing step")
      else Ok(c.step.value < |errors| && errors[c.step.value].Some?)
    case "not" =>
      if c.cond.None? then Err("hrana: batch cond 'not' missing inner cond")
      else (match EvalCond(c.cond.value, results, errors)
            case Ok(v) => Ok(!v)
            case Err(message) => Err(message))
    case "and" => EvalAll(c.conds, results, errors)
    case "or" => EvalAny(c.conds, results, errors)
    case "is_autocommit" => Ok(true)
    case _ => Err("hrana: unknown batch condition type \"" + c.typ + "\"")
  }

  function EvalAll(cs: seq<Cond>, results: seq<Option<StmtResult>>, errors: seq<Option<string>>): Result<bool> {
    if cs == [] then Ok(true)
    else match EvalCond(cs[0], results, errors)
      case Err(message) => Err(message)
      case Ok(v) => if v then EvalAll(cs[1..], results, errors) else Ok(false)
  }

  function EvalAny(cs: seq<Cond>, results: seq<Option<StmtResult>>, errors: seq<Option<string>>): Result<bool> {
    if cs == [] then Ok(false)
    else match EvalCond(cs[0], results, errors)
      case Err(message) => Err(message)
      case Ok(v) => if v then Ok(true) else EvalAny(cs[1..], results, errors)
  }

  /** Whether a step runs. */
  function Holds(step: Step, results: seq<Option<StmtResult>>, errors: seq<Option<string>>): Result<bool> {
    if step.condition.None? then Ok(true) else EvalCond(step.condition.value, results, errors)
  }

  // ── Batches ──

  /** A batch under way: what each step left so far, and how the batch failed as a whole, if it did. */
  datatype Batch<S> = Batch(
    state: S, results: seq<Option<StmtResult>>, errors: seq<Option<string>>, calls: seq<Call>, failure: Option<string>)

  function NewBatch<S>(state: S, steps: nat): Batch<S> {
    Batch(state, seq(steps, _ => None), seq(steps, _ => None), [], None)
  }

  function CondFailure(i: nat, message: string): string {
    "hrana: batch cond at step " + Decimal(i) + ": " + message
  }

  /** What is known after step i ran: its result or its error goes into its slot. */
  function Record<S>(b: Batch<S>, i: nat, state: S, calls: seq<Call>, outcome: Result<StmtResult>): (b': Batch<S>)
    requires i < |b.results| == |b.errors|
    ensures |b'.results| == |b'.errors| == |b.results|
  {
    match outcome
    case Err(message) => b.(state := state, calls := b.calls + calls, errors := b.errors[i := Some(message)])
    case Ok(result) => b.(state := state, calls := b.calls + calls, results := b.results[i := Some(result)])
  }

  /** Step i of a batch. */
  function BatchStep<S>(env: Env<S>, steps: seq<Step>, i: nat, b: Batch<S>): (b': Batch<S>)
    requires i < |steps| && |b.results| == |b.errors| == |steps|
    ensures |b'.results| == |b'.errors| == |steps|
  {
    match Holds(steps[i], b.results, b.errors)
    case Err(message) => b.(failure := Some(CondFailure(i, message)))
    case Ok(false) => b
    case Ok(true) =>
      var ran := RunStmt(env, b.state, steps[i].stmt);
      Record(b, i, ran.state, ran.calls, ran.outcome)
  }

  /** The first `upTo` steps of a batch; a failure of the whole batch ends it. */
  function BatchUpTo<S>(env: Env<S>, steps: seq<Step>, state: S, upTo: nat): (b: Batch<S>)
    requires upTo <= |steps|
    ensures |b.results| == |b.errors| == |steps|
  {
    if upTo == 0 then NewBatch(state, |steps|)
    else
      var b := BatchUpTo(env, steps, state, upTo - 1);
      if b.failure.Some? then b else BatchStep(env, steps, upTo - 1, b)
  }

  function RunBatch<S>(env: Env<S>, steps: seq<Step>, state: S): (b: Batch<S>)
    ensures |b.results| == |b.errors| == |steps|
  {
    BatchUpTo(env, steps, state, |steps|)
  }

  // ── Cursor batches ──

  datatype CursorRun<S> = CursorRun(batch: Batch<S>, entries: seq<Entry>)

  function RowEntries(rows: seq<seq<Value>>): seq<Entry> {
    seq(|rows|, j requires 0 <= j < |rows| => Row(rows[j]))
  }

  /** What a statement contributes to a cursor: its entries, and what the conditions of later steps see of it. */
  datatype CursorOutcome = CursorOutcome(entries: seq<Entry>, result: Result<StmtResult>)

  function CursorExecOutcome(i: uint32, reply: ExecReply): CursorOutcome {
    match reply
    case ExecFailed(message) => CursorOutcome([StepError(i, message)], Err(message))
    case Executed(affected, lastId) =>
      CursorOutcome([StepBegin(i, []), StepEnd(affected % TWO_TO_THE_32, RowidOf(lastId))],
                    Ok(StmtResult([], [], affected % TWO_TO_THE_64, None, 0, 0)))
  }

  function CursorQueryOutcome(i: uint32, reply: QueryReply): CursorOutcome {
    match reply
    case QueryFailed(message) => CursorOutcome([StepError(i, message)], Err(message))
    case Rows(cols, rows, end) =>
      var read := [StepBegin(i, cols)] + RowEntries(GoodRows(cols, rows));
      match EndOfRows(rows, end)
      case BadRow(message) => CursorOutcome(read + [StepError(i, message)], Err(message))
      case BadEnd(message) => CursorOutcome(read + [StepError(i, message)], Err(message))
      case Exhausted => CursorOutcome(read + [StepEnd(0, None)], Ok(StmtResult([], [], 0, None, |rows|, 0)))
  }

  /** A statement of a cursor batch; the readonly mode of the stream is not looked at. */
  function CursorStmt<S>(env: Env<S>, state: S, i: uint32, stmt: Stmt): Ran<S, CursorOutcome> {
    match ResolveSql(stmt, env.stored)
    case Err(message) => Ran(state, CursorOutcome([StepError(i, message)], Err(message)), [])
    case Ok(sql) =>
      match BuildArgs(stmt)
      case Err(message) => Ran(state, CursorOutcome([StepError(i, message)], Err(message)), [])
      case Ok(args) =>
        if !WantsRows(stmt) then
          var (after, reply) := env.exec(state, sql, args);
          Ran(after, CursorExecOutcome(i, reply), [ExecCall(sql, args)])
        else
          var (after, reply) := env.query(state, sql, args);
          Ran(after, CursorQueryOutcome(i, reply), [QueryCall(sql, args)])
  }

  function CursorStep<S>(env: Env<S>, steps: seq<Step>, i: nat, c: CursorRun<S>): (c': CursorRun<S>)
    requires i < |steps| && |c.batch.results| == |c.batch.errors| == |steps|
    ensures |c'.batch.results| == |c'.batch.errors| == |steps|
  {
    var b := c.batch;
    match Holds(steps[i], b.results, b.errors)
    case Err(message) => CursorRun(b.(failure := Some(message)), c.entries + [Failure(message)])
    case Ok(false) => c
    case Ok(true) =>
      var ran := CursorStmt(env, b.state, i % TWO_TO_THE_32, steps[i].stmt);
      CursorRun(Record(b, i, ran.state, ran.calls, ran.outcome.result), c.entries + ran.outcome.entries)
  }

  function CursorUpTo<S>(env: Env<S>, steps: seq<Step>, state: S, upTo: nat): (c: CursorRun<S>)
    requires upTo <= |steps|
    ensures |c.batch.results| == |c.batch.errors| == |steps|
  {
    if upTo == 0 then CursorRun(NewBatch(state, |steps|), [])
    else
      var c := CursorUpTo(env, steps, state, upTo - 1);
      if c.batch.failure.Some? then c else CursorStep(env, steps, upTo - 1, c)
  }

  function RunCursor<S>(env: Env<S>, steps: seq<Step>, state: S): (c: CursorRun<S>)
    ensures |c.batch.results| == |c.batch.errors| == |steps|
  {
    CursorUpTo(env, steps, state, |steps|)
  }
}
