/**
 What one statement does, said without its control flow: which text runs, whether a call is
 made and which, what state is left, and what is reported of the reply.
 */
module StatementLaws {
  import opened NativeTypes
  import opened Executor

  // ── Texts ──

  /** Exactly one of text and id is given, and it names this text. */
  predicate Names(sql: Option<string>, sqlId: Option<int32>, stored: map<int32, string>, text: string) {
    || (sql == Some(text) && sqlId.None?)
    || (sql.None? && sqlId.Some? && sqlId.value in stored && stored[sqlId.value] == text)
  }

  lemma TextIsResolved(stmt: Stmt, stored: map<int32, string>, text: string)
    ensures ResolveSql(stmt, stored) == Ok(text) <==> Names(stmt.sql, stmt.sqlId, stored, text)
  {
  }

  /** The number a decimal numeral shows. */
  function Shown(s: string): int {
    if s != "" && s[0] == '-' then -ShownDigits(s[1..]) else ShownDigits(s)
  }

  function ShownDigits(s: string): int {
    if s == "" then 0 else 10 * ShownDigits(s[..|s| - 1]) + (s[|s| - 1] as int - '0' as int)
  }

  lemma OneMoreDigit(s: string, d: nat)
    requires d < 10
    ensures ShownDigits(s + ["0123456789"[d]]) == 10 * ShownDigits(s) + d
    ensures "0123456789"[d] != '-'
  {
    var longer := s + ["0123456789"[d]];
    assert longer[..|longer| - 1] == s && longer[|longer| - 1] == "0123456789"[d];
  }

  lemma {:induction false} DigitsReadBack(n: nat)
    ensures ShownDigits(Decimal(n)) == n && Decimal(n) != "" && Decimal(n)[0] != '-'
  {
    hide ShownDigits;
    if n < 10 {
      OneMoreDigit("", n);
      assert "" + ["0123456789"[n]] == Decimal(n);
      assert ShownDigits("") == 0 by { NoDigits(); }
    } else {
      DigitsReadBack(n / 10);
      OneMoreDigit(Decimal(n / 10), n % 10);
    }
  }

  lemma NoDigits()
    ensures ShownDigits("") == 0
  {
  }

  /** A numeral shows its number. */
  lemma DecimalReadsBack(n: int)
    ensures Shown(Decimal(n)) == n
  {
    hide ShownDigits;
    if n < 0 {
      DigitsReadBack(-n);
      assert Decimal(n) == "-" + Decimal(-n) && Decimal(n)[1..] == Decimal(-n);
    } else {
      DigitsReadBack(n);
    }
  }

  // ── Values ──

  /** A protocol value stands for a driver value. */
  predicate StandsFor(v: Value, r: Raw) {
    && (r.RawNull? ==> v == Null)
    && (r.RawInt? ==> v == Integer(r.i))
    && (r.RawFloat? ==> v == Float(r.f))
    && (r.RawText? ==> v == Text(r.s))
    && (r.RawBlob? ==> v == Blob(r.b))
    && (r.RawBool? ==> v == Integer(if r.t then 1 else 0))
    && (r.RawOther? ==> v == Text(r.shown))
  }

  lemma ValuesStandFor(r: Raw)
    ensures forall v :: v == ToValue(r) <==> StandsFor(v, r)
  {
  }

  /** An argument arrives at the driver as the value it was sent as, under its name without the prefix. */
  lemma ArgumentsStandForValues(stmt: Stmt, k: nat)
    requires BuildArgs(stmt).Ok? && k < |BuildArgs(stmt).value|
    ensures var bound, named := BuildArgs(stmt).value, stmt.namedArgs;
      if named != [] then
        && |bound| == |named| && bound[k].Named? && StandsFor(named[k].value, bound[k].value)
        && !bound[k].value.RawBool? && !bound[k].value.RawOther?
        && IsBare(bound[k].name, named[k].name)
      else
        && |bound| == |stmt.args| && bound[k].Positional? && StandsFor(stmt.args[k], bound[k].value)
        && !bound[k].value.RawBool? && !bound[k].value.RawOther?
  {
    ArgsAreBound(stmt, k);
  }

  const UNKNOWN := "hrana: unknown value type "

  lemma {:induction false} FirstPositionalIsTold(args: seq<Value>, k: nat)
    requires k < |args| && args[k].Unknown? && forall j :: 0 <= j < k ==> !args[j].Unknown?
    ensures BindPositional(args) == Err(UNKNOWN + args[k].quoted)
  {
    if k > 0 {
      assert forall j :: 0 <= j < |args| - 1 ==> args[1..][j] == args[j + 1];
      FirstPositionalIsTold(args[1..], k - 1);
    }
  }

  lemma {:induction false} FirstNamedIsTold(args: seq<NamedArg>, k: nat)
    requires k < |args| && args[k].value.Unknown? && forall j :: 0 <= j < k ==> !args[j].value.Unknown?
    ensures BindNamed(args) == Err(UNKNOWN + args[k].value.quoted)
  {
    if k > 0 {
      assert forall j :: 0 <= j < |args| - 1 ==> args[1..][j] == args[j + 1];
      FirstNamedIsTold(args[1..], k - 1);
    }
  }

  /** Of several values of unknown types the first is told. */
  lemma FirstUnknownIsTold(stmt: Stmt, k: nat)
    requires k < |ValuesInUse(stmt)| && ValuesInUse(stmt)[k].Unknown?
    requires forall j :: 0 <= j < k ==> !ValuesInUse(stmt)[j].Unknown?
    ensures BuildArgs(stmt) == Err(UNKNOWN + ValuesInUse(stmt)[k].quoted)
  {
    hide BindNamed, BindPositional;
    if stmt.namedArgs != [] {
      assert forall j :: 0 <= j <= k ==> ValuesInUse(stmt)[j] == stmt.namedArgs[j].value;
      FirstNamedIsTold(stmt.namedArgs, k);
    } else {
      FirstPositionalIsTold(stmt.args, k);
    }
  }

  /** `bare` is a parameter's name without its prefix: one of three marks, dropped once. */
  predicate IsBare(bare: string, name: string) {
    if name != "" && (name[0] == ':' || name[0] == '@' || name[0] == '$') then name == [name[0]] + bare else name == bare
  }

  // ── Rows ──

  /** Every row was scanned, and the iteration ended well. */
  predicate AllFetched(rows: seq<RowReply>, end: Option<string>) {
    end.None? && forall k :: 0 <= k < |rows| ==> rows[k].Fetched?
  }

  /** Row k is the first that could not be scanned. */
  predicate FirstBad(rows: seq<RowReply>, k: nat) {
    k < |rows| && rows[k].ScanFailed? && forall j :: 0 <= j < k ==> rows[j].Fetched?
  }

  /** Row `row` shows the values fetched, each under its column; a value there is not is null. */
  predicate RowShows(cols: seq<Col>, row: seq<Value>, fetched: seq<Raw>) {
    && |row| == |cols|
    && forall j :: 0 <= j < |cols| ==> StandsFor(row[j], if j < |fetched| then fetched[j] else RawNull)
  }

  predicate RowsShow(cols: seq<Col>, shown: seq<seq<Value>>, rows: seq<RowReply>) {
    |shown| <= |rows| && forall k :: 0 <= k < |shown| ==> rows[k].Fetched? && RowShows(cols, shown[k], rows[k].values)
  }

  /** The rows reported are those before the first that could not be scanned, each value under its column. */
  lemma {:induction false} GoodRowsShow(cols: seq<Col>, rows: seq<RowReply>)
    ensures var good := GoodRows(cols, rows);
      RowsShow(cols, good, rows) && (|good| < |rows| ==> rows[|good|].ScanFailed?)
  {
    if rows != [] && rows[0].Fetched? {
      GoodRowsShow(cols, rows[1..]);
      var rest, good := GoodRows(cols, rows[1..]), GoodRows(cols, rows);
      assert forall k :: 0 < k < |rows| ==> rows[k] == rows[1..][k - 1];
      hide GoodRows;
      forall k | 0 <= k < |good| ensures rows[k].Fetched? && RowShows(cols, good[k], rows[k].values) {
        if k > 0 { assert good[k] == rest[k - 1]; }
      }
    }
  }

  lemma {:induction false} EndShows(cols: seq<Col>, rows: seq<RowReply>, end: Option<string>)
    ensures var n := |GoodRows(cols, rows)|;
      && (n < |rows| ==> rows[n].ScanFailed? && EndOfRows(rows, end) == BadRow(rows[n].message))
      && (n == |rows| ==> EndOfRows(rows, end) == if end.Some? then BadEnd(end.value) else Exhausted)
      && n <= |rows|
  {
    if rows != [] && rows[0].Fetched? {
      EndShows(cols, rows[1..], end);
      var n := |GoodRows(cols, rows)|;
      assert n == |GoodRows(cols, rows[1..])| + 1;
      if n < |rows| { assert rows[n] == rows[1..][n - 1]; }
    }
  }

  /**
   A query is reported exactly when every row was scanned and the iteration ended well, with
   every row there was and every value under its column; otherwise the first failure is told.
   */
  lemma RowsAreReported(cols: seq<Col>, rows: seq<RowReply>, end: Option<string>)
    ensures var outcome := QueryOutcome(Rows(cols, rows, end));
      && (outcome.Ok? <==> AllFetched(rows, end))
      && (outcome.Ok? ==>
            var r := outcome.value;
            && r.cols == cols && |r.rows| == |rows| == r.rowsRead && RowsShow(cols, r.rows, rows)
            && r.affected == 0 && r.lastRowid == None && r.rowsWritten == 0)
    ensures forall k: nat :: FirstBad(rows, k) ==>
      QueryOutcome(Rows(cols, rows, end)) == Err(SCANNING + rows[k].message)
    ensures (forall k :: 0 <= k < |rows| ==> rows[k].Fetched?) && end.Some? ==>
      QueryOutcome(Rows(cols, rows, end)) == Err(ITERATING + end.value)
  {
    GoodRowsShow(cols, rows);
    EndShows(cols, rows, end);
  }

  /** The entries between `step_begin` and the end of a query: the same rows, one by one. */
  lemma RowsAreStreamed(i: uint32, cols: seq<Col>, rows: seq<RowReply>, end: Option<string>)
    ensures var outcome := CursorQueryOutcome(i, Rows(cols, rows, end));
      var n := |outcome.entries| - 2;
      && n >= 0 && outcome.entries[0] == StepBegin(i, cols)
      && RowsShow(cols, RowsOf(outcome.entries[1..n + 1]), rows)
      && (forall e :: e in outcome.entries[1..n + 1] ==> e.Row?)
      && (outcome.result.Ok? <==> AllFetched(rows, end))
      && (outcome.result.Ok? ==> n == |rows| && outcome.entries[n + 1] == StepEnd(0, None))
      && (outcome.result.Err? ==> outcome.entries[n + 1] == StepError(i, outcome.result.message))
      && (outcome.result.Err? && n < |rows| ==> rows[n] == ScanFailed(outcome.result.message))
      && (outcome.result.Err? && n == |rows| ==> end == Some(outcome.result.message))
  {
    GoodRowsShow(cols, rows);
    EndShows(cols, rows, end);
    var outcome, good := CursorQueryOutcome(i, Rows(cols, rows, end)), GoodRows(cols, rows);
    hide GoodRows, EndOfRows;
    assert outcome.entries[1..|good| + 1] == RowEntries(good);
    RowsOfEntries(good);
    var n := |outcome.entries| - 2;
    assert n == |good|;
  }

  /** The rows among entries. */
  function RowsOf(entries: seq<Entry>): seq<seq<Value>> {
    if entries == [] then []
    else (if entries[0].Row? then [entries[0].row] else []) + RowsOf(entries[1..])
  }

  lemma {:induction false} RowsOfEntries(rows: seq<seq<Value>>)
    ensures RowsOf(RowEntries(rows)) == rows
  {
    if rows != [] {
      RowsOfEntries(rows[1..]);
      assert RowEntries(rows)[1..] == RowEntries(rows[1..]);
    }
  }

  // ── Statements ──

  /** A statement that is refused before anything is called. */
  predicate Refused<S>(env: Env<S>, stmt: Stmt) {
    || ResolveSql(stmt, env.stored).Err?
    || (env.readonly && env.isWrite(ResolveSql(stmt, env.stored).value))
    || exists k :: 0 <= k < |ValuesInUse(stmt)| && ValuesInUse(stmt)[k].Unknown?
  }

  /**
   A statement that is not refused makes one call, of its own text and arguments: without rows
   exactly when it says that it wants none. A refused one makes none, and changes nothing.
   */
  lemma OneCallOrNone<S>(env: Env<S>, state: S, stmt: Stmt)
    ensures var ran := RunStmt(env, state, stmt);
      if Refused(env, stmt) then ran.calls == [] && ran.state == state && ran.outcome.Err?
      else
        && |ran.calls| == 1
        && Names(stmt.sql, stmt.sqlId, env.stored, ran.calls[0].sql) && Ok(ran.calls[0].args) == BuildArgs(stmt)
        && (ran.calls[0].ExecCall? <==> stmt.wantRows == Some(false))
        && (ran.calls[0].ExecCall? ==>
              var reply := env.exec(state, ran.calls[0].sql, ran.calls[0].args);
              ran.state == reply.0 && TellsExec(ran.outcome, reply.1))
        && (ran.calls[0].QueryCall? ==>
              var reply := env.query(state, ran.calls[0].sql, ran.calls[0].args);
              ran.state == reply.0 && TellsQuery(ran.outcome, reply.1))
  {
    ArgsAreRefused(stmt);
    hide BuildArgs, ValuesInUse;
    var sql := ResolveSql(stmt, env.stored);
    if sql.Ok? { TextIsResolved(stmt, env.stored, sql.value); }
    hide ResolveSql, Names;
    if sql.Ok? && BuildArgs(stmt).Ok? {
      var reply := env.query(state, sql.value, BuildArgs(stmt).value).1;
      if reply.Rows? { RowsAreReported(reply.cols, reply.rows, reply.end); }
      hide QueryOutcome, RowsShow, AllFetched;
    }
  }

  /** What is said of a call without rows: how many were affected, in 64 bits, and the last row id unless it is 0. */
  predicate TellsExec(outcome: Result<StmtResult>, reply: ExecReply) {
    match reply
    case ExecFailed(message) => outcome == Err(message)
    case Executed(affected, lastId) =>
      && outcome.Ok? && outcome.value.cols == [] && outcome.value.rows == []
      && 0 <= outcome.value.affected < TWO_TO_THE_64 && outcome.value.rowsWritten == outcome.value.affected
      && (outcome.value.affected - affected) % TWO_TO_THE_64 == 0 && outcome.value.rowsRead == 0
      && (outcome.value.lastRowid == None <==> lastId == 0)
      && (lastId != 0 ==> outcome.value.lastRowid == Some(lastId))
  }

  predicate TellsQuery(outcome: Result<StmtResult>, reply: QueryReply) {
    match reply
    case QueryFailed(message) => outcome == Err(message)
    case Rows(cols, rows, end) =>
      && (outcome.Ok? <==> AllFetched(rows, end))
      && (outcome.Ok? ==>
            && outcome.value.cols == cols && |outcome.value.rows| == |rows| == outcome.value.rowsRead
            && RowsShow(cols, outcome.value.rows, rows)
            && outcome.value.affected == 0 && outcome.value.lastRowid == None && outcome.value.rowsWritten == 0)
  }

  lemma CursorStmtIgnoresTheMode<S>(env: Env<S>, state: S, i: uint32, stmt: Stmt, readonly: bool)
    ensures CursorStmt(env.(readonly := readonly), state, i, stmt) == CursorStmt(env, state, i, stmt)
  {
    hide ResolveSql, BuildArgs, CursorExecOutcome, CursorQueryOutcome;
  }

  /** A cursor batch does the same in either mode. */
  lemma {:induction false} CursorIgnoresTheMode<S>(env: Env<S>, steps: seq<Step>, state: S, upTo: nat, readonly: bool)
    requires upTo <= |steps|
    ensures CursorUpTo(env.(readonly := readonly), steps, state, upTo) == CursorUpTo(env, steps, state, upTo)
  {
    hide Holds, CursorStmt, Record;
    if upTo > 0 {
      CursorIgnoresTheMode(env, steps, state, upTo - 1, readonly);
      CursorStmtIgnoresTheMode(env, CursorUpTo(env, steps, state, upTo - 1).batch.state, (upTo - 1) % TWO_TO_THE_32,
                               steps[upTo - 1].stmt, readonly);
    }
  }
}
