/**
 What the conditions of a batch depend on, and with it what a batch means: which
 steps ran can be read off the finished result alone.
 */
module Conditions {
  import opened NativeTypes
  import opened Executor

  /** Every step a condition refers to comes before step n. */
  predicate RefersBelow(c: Cond, n: nat) {
    && (c.step.Some? ==> c.step.value < n)
    && (c.cond.Some? ==> RefersBelow(c.cond.value, n))
    && forall k :: 0 <= k < |c.conds| ==> RefersBelow(c.conds[k], n)
  }

  predicate ConditionsLookBack(steps: seq<Step>) {
    forall i :: 0 <= i < |steps| && steps[i].condition.Some? ==> RefersBelow(steps[i].condition.value, i)
  }

  /** Two stages of a batch in which the same of the first n steps have a result, and the same have an error. */
  ghost predicate Alike<T, U, V, W>(n: nat, results: seq<Option<T>>, errors: seq<Option<U>>,
                                    results': seq<Option<V>>, errors': seq<Option<W>>)
  {
    && |results| == |errors| == |results'| == |errors'|
    && (forall k :: 0 <= k < n && k < |results| ==> results[k].Some? == results'[k].Some?)
    && (forall k :: 0 <= k < n && k < |errors| ==> errors[k].Some? == errors'[k].Some?)
  }

  /** A condition sees nothing but which of the steps it refers to have a result or an error. */
  lemma {:induction false} ConditionSees(
    c: Cond, n: nat, results: seq<Option<StmtResult>>, errors: seq<Option<string>>,
    results': seq<Option<StmtResult>>, errors': seq<Option<string>>)
    requires Alike(n, results, errors, results', errors')
    requires n >= |results| || RefersBelow(c, n)
    ensures EvalCond(c, results, errors) == EvalCond(c, results', errors')
    decreases c, |c.conds| + 1
  {
    if c.typ == "not" && c.cond.Some? { ConditionSees(c.cond.value, n, results, errors, results', errors'); }
    if c.typ == "and" || c.typ == "or" { ConditionsSee(c, c.conds, n, results, errors, results', errors'); }
  }

  lemma {:induction false} ConditionsSee(
    outer: Cond, cs: seq<Cond>, n: nat, results: seq<Option<StmtResult>>, errors: seq<Option<string>>,
    results': seq<Option<StmtResult>>, errors': seq<Option<string>>)
    requires Alike(n, results, errors, results', errors')
    requires forall k :: 0 <= k < |cs| ==> cs[k] < outer && (n >= |results| || RefersBelow(cs[k], n))
    ensures EvalAll(cs, results, errors) == EvalAll(cs, results', errors')
    ensures EvalAny(cs, results, errors) == EvalAny(cs, results', errors')
    decreases outer, |cs|
  {
    if cs != [] {
      ConditionSees(cs[0], n, results, errors, results', errors');
      ConditionsSee(outer, cs[1..], n, results, errors, results', errors');
    }
  }

  // ── What a condition says ──

  /** The first of the conditions with this value, all before it being as `before` says. */
  ghost predicate FirstWith(cs: seq<Cond>, results: seq<Option<StmtResult>>, errors: seq<Option<string>>,
                            before: bool, value: Result<bool>)
  {
    exists k :: 0 <= k < |cs| && EvalCond(cs[k], results, errors) == value
                && forall j :: 0 <= j < k ==> EvalCond(cs[j], results, errors) == Ok(before)
  }

  ghost predicate Each(cs: seq<Cond>, results: seq<Option<StmtResult>>, errors: seq<Option<string>>, value: bool) {
    forall k :: 0 <= k < |cs| ==> EvalCond(cs[k], results, errors) == Ok(value)
  }

  lemma FirstOfMore(cs: seq<Cond>, results: seq<Option<StmtResult>>, errors: seq<Option<string>>,
                    before: bool, value: Result<bool>)
    requires cs != []
    ensures FirstWith(cs, results, errors, before, value) <==>
              EvalCond(cs[0], results, errors) == value
              || (EvalCond(cs[0], results, errors) == Ok(before) && FirstWith(cs[1..], results, errors, before, value))
    ensures Each(cs, results, errors, before) <==>
              EvalCond(cs[0], results, errors) == Ok(before) && Each(cs[1..], results, errors, before)
  {
    hide EvalCond;
    var rest := cs[1..];
    assert forall k :: 0 <= k < |rest| ==> rest[k] == cs[k + 1];
    if EvalCond(cs[0], results, errors) == Ok(before) && FirstWith(rest, results, errors, before, value) {
      var k :| 0 <= k < |rest| && EvalCond(rest[k], results, errors) == value
               && forall j :: 0 <= j < k ==> EvalCond(rest[j], results, errors) == Ok(before);
      forall j | 0 <= j < k + 1 ensures EvalCond(cs[j], results, errors) == Ok(before) {
        if j > 0 { assert cs[j] == rest[j - 1]; }
      }
      assert EvalCond(cs[k + 1], results, errors) == value;
    }
    if FirstWith(cs, results, errors, before, value) && EvalCond(cs[0], results, errors) != value {
      var k :| 0 <= k < |cs| && EvalCond(cs[k], results, errors) == value
               && forall j :: 0 <= j < k ==> EvalCond(cs[j], results, errors) == Ok(before);
      assert k > 0 && EvalCond(rest[k - 1], results, errors) == value;
      assert FirstWith(rest, results, errors, before, value);
    }
  }

  lemma {:induction false} AllMeans(cs: seq<Cond>, results: seq<Option<StmtResult>>, errors: seq<Option<string>>)
    ensures EvalAll(cs, results, errors) == Ok(true) <==> Each(cs, results, errors, true)
    ensures EvalAll(cs, results, errors) == Ok(false) <==> FirstWith(cs, results, errors, true, Ok(false))
    ensures forall m :: EvalAll(cs, results, errors) == Err(m) <==> FirstWith(cs, results, errors, true, Err(m))
  {
    hide EvalCond, FirstWith, Each;
    if cs == [] {
      NothingFirst(results, errors, true);
    } else {
      AllMeans(cs[1..], results, errors);
      FirstOfMore(cs, results, errors, true, Ok(false));
      forall m ensures EvalAll(cs, results, errors) == Err(m) <==> FirstWith(cs, results, errors, true, Err(m)) {
        FirstOfMore(cs, results, errors, true, Err(m));
      }
    }
  }

  lemma {:induction false} AnyMeans(cs: seq<Cond>, results: seq<Option<StmtResult>>, errors: seq<Option<string>>)
    ensures EvalAny(cs, results, errors) == Ok(false) <==> Each(cs, results, errors, false)
    ensures EvalAny(cs, results, errors) == Ok(true) <==> FirstWith(cs, results, errors, false, Ok(true))
    ensures forall m :: EvalAny(cs, results, errors) == Err(m) <==> FirstWith(cs, results, errors, false, Err(m))
  {
    hide EvalCond, FirstWith, Each;
    if cs == [] {
      NothingFirst(results, errors, false);
    } else {
      AnyMeans(cs[1..], results, errors);
      FirstOfMore(cs, results, errors, false, Ok(true));
      forall m ensures EvalAny(cs, results, errors) == Err(m) <==> FirstWith(cs, results, errors, false, Err(m)) {
        FirstOfMore(cs, results, errors, false, Err(m));
      }
    }
  }

  lemma NothingFirst(results: seq<Option<StmtResult>>, errors: seq<Option<string>>, before: bool)
    ensures Each([], results, errors, before)
    ensures forall value :: !FirstWith([], results, errors, before, value)
  {
  }

  /**
   A conjunction is true when every part is, and otherwise what the first part that is not true
   says: false, or the error. A disjunction is false when every part is, and otherwise what the
   first part that is not false says.
   */
  lemma AndOrMean(c: Cond, results: seq<Option<StmtResult>>, errors: seq<Option<string>>)
    ensures c.typ == "and" ==>
      && (EvalCond(c, results, errors) == Ok(true) <==> Each(c.conds, results, errors, true))
      && (EvalCond(c, results, errors) == Ok(false) <==> FirstWith(c.conds, results, errors, true, Ok(false)))
      && forall m :: EvalCond(c, results, errors) == Err(m) <==> FirstWith(c.conds, results, errors, true, Err(m))
    ensures c.typ == "or" ==>
      && (EvalCond(c, results, errors) == Ok(false) <==> Each(c.conds, results, errors, false))
      && (EvalCond(c, results, errors) == Ok(true) <==> FirstWith(c.conds, results, errors, false, Ok(true)))
      && forall m :: EvalCond(c, results, errors) == Err(m) <==> FirstWith(c.conds, results, errors, false, Err(m))
  {
    AllMeans(c.conds, results, errors);
    AnyMeans(c.conds, results, errors);
    hide FirstWith, Each, EvalAll, EvalAny;
  }

  /** `ok` and `error` ask for a result or an error of one step; a step that is not there has neither. */
  lemma StepConditionMeans(c: Cond, results: seq<Option<StmtResult>>, errors: seq<Option<string>>)
    requires c.typ == "ok" || c.typ == "error"
    ensures var v := EvalCond(c, results, errors);
      && (v.Err? <==> c.step.None?)
      && (v == Ok(true) <==>
            && c.step.Some?
            && if c.typ == "ok" then c.step.value < |results| && results[c.step.value].Some?
               else c.step.value < |errors| && errors[c.step.value].Some?)
  {
  }

  /** `not` turns its condition round and passes its error on; without a condition it is an error itself. */
  lemma NotMeans(c: Cond, results: seq<Option<StmtResult>>, errors: seq<Option<string>>)
    requires c.typ == "not"
    ensures c.cond.None? ==> EvalCond(c, results, errors).Err?
    ensures c.cond.Some? ==>
      var v, inner := EvalCond(c, results, errors), EvalCond(c.cond.value, results, errors);
      && (inner.Err? ==> v == inner)
      && (v == Ok(true) <==> inner == Ok(false)) && (v == Ok(false) <==> inner == Ok(true))
  {
  }

  /** Outside a transaction is where every batch runs; what the server does not know is an error. */
  lemma OtherConditionMeans(c: Cond, results: seq<Option<StmtResult>>, errors: seq<Option<string>>)
    requires c.typ !in {"ok", "error", "not", "and", "or"}
    ensures EvalCond(c, results, errors) == Ok(true) <==> c.typ == "is_autocommit"
    ensures EvalCond(c, results, errors).Err? <==> c.typ != "is_autocommit"
  {
  }

  /** A condition fails only for what is missing in it, never for what the batch has done. */
  predicate WellFormed(c: Cond) {
    match c.typ
    case "ok" => c.step.Some?
    case "error" => c.step.Some?
    case "not" => c.cond.Some? && WellFormed(c.cond.value)
    case "and" => forall k :: 0 <= k < |c.conds| ==> WellFormed(c.conds[k])
    case "or" => forall k :: 0 <= k < |c.conds| ==> WellFormed(c.conds[k])
    case "is_autocommit" => true
    case _ => false
  }

  lemma {:induction false} WellFormedNeverFails(
    c: Cond, results: seq<Option<StmtResult>>, errors: seq<Option<string>>)
    requires WellFormed(c)
    ensures EvalCond(c, results, errors).Ok?
    decreases c
  {
    AndOrMean(c, results, errors);
    if c.typ == "not" { WellFormedNeverFails(c.cond.value, results, errors); }
    if c.typ == "and" || c.typ == "or" {
      forall k | 0 <= k < |c.conds| ensures EvalCond(c.conds[k], results, errors).Ok? {
        WellFormedNeverFails(c.conds[k], results, errors);
      }
    }
  }

  function Not(c: Cond): Cond {
    Cond("not", None, Some(c), [])
  }

  function NotEach(cs: seq<Cond>): seq<Cond> {
    if cs == [] then [] else [Not(cs[0])] + NotEach(cs[1..])
  }

  lemma EvalNot(c: Cond, results: seq<Option<StmtResult>>, errors: seq<Option<string>>)
    ensures EvalCond(Not(c), results, errors) ==
            match EvalCond(c, results, errors) case Ok(v) => Ok(!v) case Err(message) => Err(message)
  {
  }

  lemma {:induction false} AnyOfNegated(cs: seq<Cond>, results: seq<Option<StmtResult>>, errors: seq<Option<string>>)
    ensures EvalAny(NotEach(cs), results, errors) ==
            match EvalAll(cs, results, errors) case Ok(v) => Ok(!v) case Err(message) => Err(message)
  {
    hide EvalCond;
    if cs != [] {
      AnyOfNegated(cs[1..], results, errors);
      EvalNot(cs[0], results, errors);
      assert NotEach(cs)[0] == Not(cs[0]) && NotEach(cs)[1..] == NotEach(cs[1..]);
    }
  }

  /**
   De Morgan's law holds of conditions, errors included: both sides look at the conditions
   in order and stop at the same one.
   */
  lemma DeMorgan(cs: seq<Cond>, results: seq<Option<StmtResult>>, errors: seq<Option<string>>)
    ensures EvalCond(Not(Cond("and", None, None, cs)), results, errors) ==
            EvalCond(Cond("or", None, None, NotEach(cs)), results, errors)
  {
    AnyOfNegated(cs, results, errors);
    EvalNot(Cond("and", None, None, cs), results, errors);
  }

  // ── Stability ──

  /** Running on from one step to a later one leaves the slots of the steps before it alone. */
  lemma {:induction false} SlotsAreFinal<S>(env: Env<S>, steps: seq<Step>, state: S, from: nat, upTo: nat)
    requires from <= upTo <= |steps|
    ensures var b, b' := BatchUpTo(env, steps, state, from), BatchUpTo(env, steps, state, upTo);
      && b.results[..from] == b'.results[..from] && b.errors[..from] == b'.errors[..from]
      && (b'.failure.None? ==> b.failure.None?)
  {
    hide Holds, RunStmt;
    if from < upTo { SlotsAreFinal(env, steps, state, from, upTo - 1); }
  }

  predicate EmptyFrom<S>(b: Batch<S>, from: nat) {
    && |b.results| == |b.errors|
    && forall k :: from <= k < |b.results| ==> b.results[k].None? && b.errors[k].None?
  }

  /** The steps still to come have neither a result nor an error. */
  lemma {:induction false} LaterSlotsAreEmpty<S>(env: Env<S>, steps: seq<Step>, state: S, upTo: nat)
    requires upTo <= |steps|
    ensures EmptyFrom(BatchUpTo(env, steps, state, upTo), upTo)
  {
    hide Holds, RunStmt;
    if upTo > 0 { LaterSlotsAreEmpty(env, steps, state, upTo - 1); }
  }

  /** A condition that looks back has the same value when its step comes up as on the finished batch. */
  lemma ConditionIsStable<S>(env: Env<S>, steps: seq<Step>, state: S, i: nat)
    requires i < |steps| && ConditionsLookBack(steps)
    ensures var b, b' := BatchUpTo(env, steps, state, i), RunBatch(env, steps, state);
      Holds(steps[i], b.results, b.errors) == Holds(steps[i], b'.results, b'.errors)
  {
    var b, b' := BatchUpTo(env, steps, state, i), RunBatch(env, steps, state);
    SlotsAreFinal(env, steps, state, i, |steps|);
    if steps[i].condition.Some? {
      assert forall k :: 0 <= k < i ==> b.results[k] == b.results[..i][k] && b'.results[k] == b'.results[..i][k];
      assert forall k :: 0 <= k < i ==> b.errors[k] == b.errors[..i][k] && b'.errors[k] == b'.errors[..i][k];
      ConditionSees(steps[i].condition.value, i, b.results, b.errors, b'.results, b'.errors);
    }
  }

  // ── What a batch means ──

  /** The step's slots agree with the value its condition has on the finished batch. */
  predicate SlotMatches<S>(steps: seq<Step>, b: Batch<S>, i: nat)
    requires i < |steps| && |b.results| == |b.errors| == |steps|
  {
    match Holds(steps[i], b.results, b.errors)
    case Err(_) => false
    case Ok(runs) => b.results[i].Some? == (runs && b.errors[i].None?) && (b.errors[i].Some? ==> runs)
  }

  /**
   A batch that does not fail as a whole is determined by its own result: a step was
   skipped, with neither result nor error, exactly when its condition is false there,
   and otherwise it has exactly one of the two.
   */
  lemma EveryStepIsAccountedFor<S>(env: Env<S>, steps: seq<Step>, state: S, i: nat)
    requires i < |steps| && ConditionsLookBack(steps)
    requires RunBatch(env, steps, state).failure.None?
    ensures SlotMatches(steps, RunBatch(env, steps, state), i)
  {
    hide RunStmt, Holds, BatchUpTo;
    SlotsAreFinal(env, steps, state, i + 1, |steps|);
    SlotAfterStep(env, steps, state, i);
    SlotIsFinal(env, steps, state, i);
    ConditionIsStable(env, steps, state, i);
  }

  /** What the slots of a step say right after it, in a batch that goes on. */
  lemma SlotAfterStep<S>(env: Env<S>, steps: seq<Step>, state: S, i: nat)
    requires i < |steps| && BatchUpTo(env, steps, state, i + 1).failure.None?
    ensures var b, b' := BatchUpTo(env, steps, state, i), BatchUpTo(env, steps, state, i + 1);
      match Holds(steps[i], b.results, b.errors)
      case Err(_) => false
      case Ok(runs) => b'.results[i].Some? == (runs && b'.errors[i].None?) && (b'.errors[i].Some? ==> runs)
  {
    hide RunStmt, Holds;
    LaterSlotsAreEmpty(env, steps, state, i);
  }

  lemma SlotIsFinal<S>(env: Env<S>, steps: seq<Step>, state: S, i: nat)
    requires i < |steps|
    ensures var b, b' := BatchUpTo(env, steps, state, i + 1), RunBatch(env, steps, state);
      b.results[i] == b'.results[i] && b.errors[i] == b'.errors[i]
  {
    hide BatchUpTo;
    SlotsAreFinal(env, steps, state, i + 1, |steps|);
    var b, b' := BatchUpTo(env, steps, state, i + 1), RunBatch(env, steps, state);
    assert b.results[..i + 1][i] == b'.results[..i + 1][i] && b.errors[..i + 1][i] == b'.errors[..i + 1][i];
  }

  /** What the slots of a step say of its statement, right after it. */
  lemma SlotSays<S>(env: Env<S>, steps: seq<Step>, state: S, i: nat)
    requires i < |steps| && BatchUpTo(env, steps, state, i + 1).failure.None?
    ensures var b, b' := BatchUpTo(env, steps, state, i), BatchUpTo(env, steps, state, i + 1);
      var ran := Holds(steps[i], b.results, b.errors) == Ok(true);
      var succeeded := RunStmt(env, b.state, steps[i].stmt).outcome.Ok?;
      && (b'.results[i].Some? <==> ran && succeeded) && (b'.errors[i].Some? <==> ran && !succeeded)
  {
    hide RunStmt, Holds;
    LaterSlotsAreEmpty(env, steps, state, i);
  }

  /** What `ok` and `error` mean on a finished batch: the step's condition held, and its statement succeeded or failed. */
  lemma OkMeansSucceeded<S>(env: Env<S>, steps: seq<Step>, state: S, i: uint32)
    requires i < |steps| && RunBatch(env, steps, state).failure.None?
    ensures var b, b' := BatchUpTo(env, steps, state, i), RunBatch(env, steps, state);
      var ran := Holds(steps[i], b.results, b.errors) == Ok(true);
      var succeeded := RunStmt(env, b.state, steps[i].stmt).outcome.Ok?;
      && EvalCond(Cond("ok", Some(i), None, []), b'.results, b'.errors) == Ok(ran && succeeded)
      && EvalCond(Cond("error", Some(i), None, []), b'.results, b'.errors) == Ok(ran && !succeeded)
  {
    var b' := RunBatch(env, steps, state);
    hide RunStmt, Holds, EvalCond, BatchUpTo;
    SlotsAreFinal(env, steps, state, i + 1, |steps|);
    SlotIsFinal(env, steps, state, i);
    SlotSays(env, steps, state, i);
    var ok, error := Cond("ok", Some(i), None, []), Cond("error", Some(i), None, []);
    StepConditionMeans(ok, b'.results, b'.errors);
    StepConditionMeans(error, b'.results, b'.errors);
    assert EvalCond(ok, b'.results, b'.errors).Ok? && EvalCond(error, b'.results, b'.errors).Ok?;
    assert EvalCond(ok, b'.results, b'.errors).value == b'.results[i].Some?;
    assert EvalCond(error, b'.results, b'.errors).value == b'.errors[i].Some?;
  }

  /** The statements of the steps whose conditions hold on a finished batch, in order. */
  function Chosen<S>(steps: seq<Step>, b: Batch<S>, upTo: nat): seq<Stmt>
    requires upTo <= |steps|
  {
    if upTo == 0 then []
    else Chosen(steps, b, upTo - 1) +
         (if Holds(steps[upTo - 1], b.results, b.errors) == Ok(true) then [steps[upTo - 1].stmt] else [])
  }

  /** Statements run one after the other, whatever becomes of each. */
  function RunAll<S>(env: Env<S>, state: S, stmts: seq<Stmt>): Ran<S, seq<Result<StmtResult>>> {
    if stmts == [] then Ran(state, [], [])
    else
      var before := RunAll(env, state, stmts[..|stmts| - 1]);
      var ran := RunStmt(env, before.state, stmts[|stmts| - 1]);
      Ran(ran.state, before.outcome + [ran.outcome], before.calls + ran.calls)
  }

  lemma RunAllSnoc<S>(env: Env<S>, state: S, stmts: seq<Stmt>, last: Stmt)
    ensures var before := RunAll(env, state, stmts);
      var ran := RunStmt(env, before.state, last);
      RunAll(env, state, stmts + [last]) == Ran(ran.state, before.outcome + [ran.outcome], before.calls + ran.calls)
  {
    assert (stmts + [last])[..|stmts|] == stmts;
  }

  /** The outcomes a batch recorded, in the order of its steps. */
  function Recorded<S>(b: Batch<S>, upTo: nat): seq<Result<StmtResult>>
    requires upTo <= |b.results| == |b.errors|
  {
    if upTo == 0 then []
    else Recorded(b, upTo - 1) + Slot(b.results[upTo - 1], b.errors[upTo - 1])
  }

  function Slot(result: Option<StmtResult>, error: Option<string>): seq<Result<StmtResult>> {
    if result.Some? then [Ok(result.value)] else if error.Some? then [Err(error.value)] else []
  }

  lemma {:induction false} RecordedBelow<S>(b: Batch<S>, b': Batch<S>, upTo: nat)
    requires upTo <= |b.results| == |b.errors| == |b'.results| == |b'.errors|
    requires forall k :: 0 <= k < upTo ==> b.results[k] == b'.results[k] && b.errors[k] == b'.errors[k]
    ensures Recorded(b, upTo) == Recorded(b', upTo)
  {
    if upTo > 0 { RecordedBelow(b, b', upTo - 1); }
  }

  /** One step of a batch that goes on: skipped and nothing changed, or run and recorded. */
  lemma StepRecords<S>(env: Env<S>, steps: seq<Step>, state: S, i: nat)
    requires i < |steps|
    requires BatchUpTo(env, steps, state, i + 1).failure.None?
    ensures var b, b' := BatchUpTo(env, steps, state, i), BatchUpTo(env, steps, state, i + 1);
      var ran := RunStmt(env, b.state, steps[i].stmt);
      match Holds(steps[i], b.results, b.errors)
      case Err(_) => false
      case Ok(false) => b' == b && Recorded(b', i + 1) == Recorded(b, i)
      case Ok(true) => b'.state == ran.state && b'.calls == b.calls + ran.calls &&
                       Recorded(b', i + 1) == Recorded(b, i) + [ran.outcome]
  {
    hide RunStmt, Holds;
    LaterSlotsAreEmpty(env, steps, state, i);
    var b, b' := BatchUpTo(env, steps, state, i), BatchUpTo(env, steps, state, i + 1);
    RecordedBelow(b, b', i);
  }

  lemma RunNothing<S>(env: Env<S>, steps: seq<Step>, state: S)
    ensures var b := BatchUpTo(env, steps, state, 0);
      b.state == state && b.calls == [] && Recorded(b, 0) == []
  {
  }

  lemma {:induction false} PlainRunUpTo<S>(env: Env<S>, steps: seq<Step>, state: S, upTo: nat)
    requires upTo <= |steps| && ConditionsLookBack(steps)
    requires RunBatch(env, steps, state).failure.None?
    ensures var b := BatchUpTo(env, steps, state, upTo);
      RunAll(env, state, Chosen(steps, RunBatch(env, steps, state), upTo)) == Ran(b.state, Recorded(b, upTo), b.calls)
  {
    hide RunStmt, Holds, BatchUpTo, Recorded;
    if upTo == 0 {
      RunNothing(env, steps, state);
    } else {
      var i := upTo - 1;
      PlainRunUpTo(env, steps, state, i);
      SlotsAreFinal(env, steps, state, upTo, |steps|);
      StepRecords(env, steps, state, i);
      ConditionIsStable(env, steps, state, i);
      var chosen := Chosen(steps, RunBatch(env, steps, state), i);
      RunAllSnoc(env, state, chosen, steps[i].stmt);
      assert chosen + [] == chosen;
    }
  }

  /**
   The meaning of a batch without its control flow: run, as a plain list, the
   statements of the steps whose conditions hold on the finished result. That gives
   the batch's database state, its calls, and its outcomes in order.
   */
  lemma BatchIsAPlainRun<S>(env: Env<S>, steps: seq<Step>, state: S)
    requires ConditionsLookBack(steps)
    requires RunBatch(env, steps, state).failure.None?
    ensures var b := RunBatch(env, steps, state);
      RunAll(env, state, Chosen(steps, b, |steps|)) == Ran(b.state, Recorded(b, |steps|), b.calls)
  {
    PlainRunUpTo(env, steps, state, |steps|);
  }

  function Stmts(steps: seq<Step>, upTo: nat): seq<Stmt>
    requires upTo <= |steps|
  {
    seq(upTo, i requires 0 <= i < upTo => steps[i].stmt)
  }

  lemma {:induction false} UnconditionalUpTo<S>(env: Env<S>, steps: seq<Step>, state: S, upTo: nat)
    requires upTo <= |steps| && forall i :: 0 <= i < |steps| ==> steps[i].condition.None?
    ensures var b := BatchUpTo(env, steps, state, upTo);
      b.failure.None? && RunAll(env, state, Stmts(steps, upTo)) == Ran(b.state, Recorded(b, upTo), b.calls)
  {
    hide RunStmt, Recorded;
    if upTo == 0 {
      RunNothing(env, steps, state);
    } else {
      var i := upTo - 1;
      UnconditionalUpTo(env, steps, state, i);
      assert BatchUpTo(env, steps, state, upTo).failure.None?;
      StepRecords(env, steps, state, i);
      RunAllSnoc(env, state, Stmts(steps, i), steps[i].stmt);
      assert Stmts(steps, upTo) == Stmts(steps, i) + [steps[i].stmt];
    }
  }

  /** A batch without conditions runs all its statements, in order, whatever becomes of each. */
  lemma UnconditionalBatchRunsAll<S>(env: Env<S>, steps: seq<Step>, state: S)
    requires forall i :: 0 <= i < |steps| ==> steps[i].condition.None?
    ensures var b := RunBatch(env, steps, state);
      b.failure.None? && RunAll(env, state, Stmts(steps, |steps|)) == Ran(b.state, Recorded(b, |steps|), b.calls)
  {
    UnconditionalUpTo(env, steps, state, |steps|);
  }

  /** Step i is reached and its condition cannot be evaluated, as `message` says. */
  ghost predicate FailsAt<S>(env: Env<S>, steps: seq<Step>, state: S, i: nat, message: string) {
    && i < |steps|
    && var b := BatchUpTo(env, steps, state, i);
      b.failure.None? && Holds(steps[i], b.results, b.errors) == Err(message)
  }

  /** The step at which a batch fails is the last one with anything done: nothing from it on is run. */
  lemma {:induction false} WhereABatchFails<S>(env: Env<S>, steps: seq<Step>, state: S, upTo: nat)
      returns (i: nat, message: string)
    requires upTo <= |steps|
    requires BatchUpTo(env, steps, state, upTo).failure.Some?
    ensures FailsAt(env, steps, state, i, message)
    ensures BatchUpTo(env, steps, state, upTo) ==
            BatchUpTo(env, steps, state, i).(
              failure := Some("hrana: batch cond at step " + Decimal(i) + ": " + message))
  {
    hide RunStmt, EvalCond;
    if BatchUpTo(env, steps, state, upTo - 1).failure.Some? {
      i, message := WhereABatchFails(env, steps, state, upTo - 1);
    } else {
      i, message := upTo - 1, Holds(steps[upTo - 1],
        BatchUpTo(env, steps, state, upTo - 1).results, BatchUpTo(env, steps, state, upTo - 1).errors).message;
    }
  }

  /** A batch fails as a whole exactly when a step it reaches has a condition that cannot be evaluated. */
  lemma ABatchFailsByACondition<S>(env: Env<S>, steps: seq<Step>, state: S)
    ensures RunBatch(env, steps, state).failure.Some? <==> exists i: nat, message :: FailsAt(env, steps, state, i, message)
  {
    if RunBatch(env, steps, state).failure.Some? {
      var i, message := WhereABatchFails(env, steps, state, |steps|);
    }
    forall i: nat, message | FailsAt(env, steps, state, i, message) ensures RunBatch(env, steps, state).failure.Some? {
      SlotsAreFinal(env, steps, state, i + 1, |steps|);
    }
  }
}
