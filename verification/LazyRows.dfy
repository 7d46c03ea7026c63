/**
 Lazy rows: a chain of `map` and `filter` stages over the rows of a result, each with its
 own running index, pulled one row at a time. Rows of every stage are values of one type.
 */
module LazyRows {
  import opened NativeTypes

  datatype Stage<!T> = Map(fn: (T, nat) -> T) | Filter(keep: (T, nat) -> bool)

  /** A call of a stage's function. */
  datatype Call<T> = Call(row: T, index: nat)

  // ── Eager ──

  /** A stage applied to a whole list, its index starting at `index`. */
  function Applied<T>(stage: Stage<T>, index: nat, rows: seq<T>): seq<T>
    decreases rows
  {
    if rows == [] then []
    else
      var rest := Applied(stage, index + 1, rows[1..]);
      match stage
      case Map(fn) => [fn(rows[0], index)] + rest
      case Filter(keep) => if keep(rows[0], index) then [rows[0]] + rest else rest
  }

  /** All stages applied one after the other, each to the whole list the one before leaves. */
  function Eager<T>(stages: seq<Stage<T>>, rows: seq<T>): seq<T> {
    if stages == [] then rows
    else Applied(stages[|stages| - 1], 0, Eager(stages[..|stages| - 1], rows))
  }

  /** The first stage comes first: the others work on what it leaves. */
  lemma {:induction false} FirstStageFirst<T>(first: Stage<T>, others: seq<Stage<T>>, rows: seq<T>)
    ensures Eager([first] + others, rows) == Eager(others, Applied(first, 0, rows))
    decreases |others|
  {
    var stages := [first] + others;
    if others == [] {
      assert stages == [first] && stages[..0] == [];
      assert Eager([], rows) == rows;
    } else {
      assert stages[..|stages| - 1] == [first] + others[..|others| - 1];
      FirstStageFirst(first, others[..|others| - 1], rows);
    }
  }

  /** One call for every row, in order. */
  function Enumerated<T>(rows: seq<T>, index: nat): seq<Call<T>>
    decreases rows
  {
    if rows == [] then [] else [Call(rows[0], index)] + Enumerated(rows[1..], index + 1)
  }

  /** A map gives every row its function's value at the row's own index, and a filter the row itself if it is kept. */
  lemma OneRow<T>(stage: Stage<T>, index: nat, row: T)
    ensures stage.Map? ==> Applied(stage, index, [row]) == [stage.fn(row, index)]
    ensures stage.Filter? ==> Applied(stage, index, [row]) == if stage.keep(row, index) then [row] else []
  {
    assert Applied(stage, index + 1, [row][1..]) == [];
  }

  /** A stage goes row by row: what it gives for a list is what it gives for the rows one after the other. */
  lemma {:induction false} RowByRow<T>(stage: Stage<T>, index: nat, a: seq<T>, b: seq<T>)
    ensures Applied(stage, index, a + b) == Applied(stage, index, a) + Applied(stage, index + |a|, b)
    decreases a
  {
    if a == [] {
      assert a + b == b;
    } else {
      assert (a + b)[0] == a[0] && (a + b)[1..] == a[1..] + b;
      RowByRow(stage, index + 1, a[1..], b);
    }
  }

  /** The calls of a stage are those of the rows that reach it, each with its own place among them. */
  lemma {:induction false} CallsAreNumbered<T>(rows: seq<T>, index: nat)
    ensures |Enumerated(rows, index)| == |rows|
    ensures forall i :: 0 <= i < |rows| ==> Enumerated(rows, index)[i] == Call(rows[i], index + i)
    decreases rows
  {
    if rows != [] { CallsAreNumbered(rows[1..], index + 1); }
  }

  // ── Lazy ──

  /** What the first k stages still have to give, from this position and these indices on. */
  function Rest<T>(rows: seq<T>, stages: seq<Stage<T>>, pos: nat, index: seq<nat>, k: nat): seq<T>
    requires pos <= |rows| && k <= |stages| == |index|
  {
    if k == 0 then rows[pos..] else Applied(stages[k - 1], index[k - 1], Rest(rows, stages, pos, index, k - 1))
  }

  lemma {:induction false} RestLooksBelow<T>(
    rows: seq<T>, stages: seq<Stage<T>>, pos: nat, index: seq<nat>, index': seq<nat>, k: nat)
    requires pos <= |rows| && k <= |stages| == |index| == |index'|
    requires index[..k] == index'[..k]
    ensures Rest(rows, stages, pos, index, k) == Rest(rows, stages, pos, index', k)
  {
    if k > 0 {
      assert index[k - 1] == index[..k][k - 1] == index'[..k][k - 1] == index'[k - 1];
      assert index[..k - 1] == index[..k][..k - 1] && index'[..k - 1] == index'[..k][..k - 1];
      RestLooksBelow(rows, stages, pos, index, index', k - 1);
    }
  }

  lemma {:induction false} NothingRests<T>(rows: seq<T>, stages: seq<Stage<T>>, index: seq<nat>, k: nat)
    requires k <= |stages| == |index|
    ensures Rest(rows, stages, |rows|, index, k) == []
  {
    if k > 0 { NothingRests(rows, stages, index, k - 1); }
  }

  lemma {:induction false} RestAtTheStart<T>(rows: seq<T>, stages: seq<Stage<T>>, index: seq<nat>, k: nat)
    requires k <= |stages| == |index| && forall i :: 0 <= i < |index| ==> index[i] == 0
    ensures Rest(rows, stages, 0, index, k) == Eager(stages[..k], rows)
  {
    if k > 0 {
      RestAtTheStart(rows, stages, index, k - 1);
      assert stages[..k][..k - 1] == stages[..k - 1];
    }
  }

  class RowIterator<T> {
    const rows: seq<T>
    const stages: seq<Stage<T>>
    var pos: nat
    /** The index each stage gives its function next. */
    var index: seq<nat>
    /** The calls made of each stage's function. */
    ghost var calls: seq<seq<Call<T>>>

    ghost predicate Valid()
      reads this
    {
      pos <= |rows| && |index| == |calls| == |stages|
    }

    ghost function Left(k: nat): seq<T>
      reads this
      requires Valid() && k <= |stages|
    {
      Rest(rows, stages, pos, index, k)
    }

    /** The calls of stage k that were made, and those still to be made if everything is pulled. */
    ghost function AllCalls(k: nat): seq<Call<T>>
      reads this
      requires Valid() && k < |stages|
    {
      calls[k] + Enumerated(Left(k), index[k])
    }

    constructor (rows: seq<T>, stages: seq<Stage<T>>)
      ensures Valid() && this.rows == rows && this.stages == stages
      ensures forall k :: 0 <= k <= |stages| ==> Left(k) == Eager(stages[..k], rows)
      ensures forall k :: 0 <= k < |stages| ==> AllCalls(k) == Enumerated(Eager(stages[..k], rows), 0)
    {
      this.rows, this.stages, pos := rows, stages, 0;
      index, calls := seq(|stages|, _ => 0), seq(|stages|, _ => []);
      new;
      forall k | 0 <= k <= |stages| ensures Left(k) == Eager(stages[..k], rows) {
        RestAtTheStart(rows, stages, index, k);
      }
    }

    /** The next row out of the first k stages, if there is one. */
    method Next(k: nat) returns (step: Option<T>)
      requires Valid() && k <= |stages|
      modifies this
      ensures Valid()
      ensures step.Some? ==> old(Left(k)) == [step.value] + Left(k) && pos > old(pos)
      ensures step.None? ==> old(Left(k)) == [] && pos == |rows|
      ensures index[k..] == old(index)[k..] && calls[k..] == old(calls)[k..]
      ensures forall j :: 0 <= j < k ==> AllCalls(j) == old(AllCalls(j))
      decreases k
    {
      if k == 0 {
        if pos == |rows| { return None; }
        pos := pos + 1;
        return Some(rows[pos - 1]);
      }
      match stages[k - 1]
      case Map(fn) =>
        var i, row := PullInto(k);
        return if row.Some? then Some(fn(row.value, i)) else None;
      case Filter(keep) =>
        while true
          invariant Valid() && pos >= old(pos)
          invariant Left(k) == old(Left(k))
          invariant index[k..] == old(index)[k..] && calls[k..] == old(calls)[k..]
          invariant forall j :: 0 <= j < k ==> AllCalls(j) == old(AllCalls(j))
          decreases |rows| - pos
        {
          var i, row := PullInto(k);
          if row.None? || keep(row.value, i) { return row; }
        }
    }

    /** A row from the stages below, and the index to give it to the function of stage k - 1 with. */
    method PullInto(k: nat) returns (i: nat, row: Option<T>)
      requires Valid() && 0 < k <= |stages|
      modifies this
      ensures Valid() && i == old(index)[k - 1]
      ensures row.Some? ==>
        && pos > old(pos)
        && index[k - 1] == i + 1
        && old(Left(k)) == Applied(stages[k - 1], i, [row.value] + Left(k - 1))
      ensures row.None? ==> old(Left(k)) == [] && pos == |rows|
      ensures index[k..] == old(index)[k..] && calls[k..] == old(calls)[k..]
      ensures forall j :: 0 <= j < k ==> AllCalls(j) == old(AllCalls(j))
      decreases k, 0
    {
      i := index[k - 1];
      row := Next(k - 1);
      assert index[k - 1] == index[k - 1..][0] == old(index)[k - 1..][0] == i;
      assert index[k..] == index[k - 1..][1..] && old(index)[k..] == old(index)[k - 1..][1..];
      assert calls[k..] == calls[k - 1..][1..] && old(calls)[k..] == old(calls)[k - 1..][1..];
      assert calls[k - 1] == calls[k - 1..][0] == old(calls)[k - 1..][0] == old(calls)[k - 1];
      if row.Some? {
        ghost var before, left := index, Left(k - 1);
        ghost var made := [Call(row.value, i)];
        EnumeratedCons(row.value, left, i);
        assert old(calls)[k - 1] + (made + Enumerated(left, i + 1)) == old(calls)[k - 1] + made + Enumerated(left, i + 1);
        index := index[k - 1 := i + 1];
        calls := calls[k - 1 := calls[k - 1] + made];
        forall j | 0 <= j < k ensures Left(j) == Rest(rows, stages, pos, before, j) {
          assert index[..j] == before[..j];
          RestLooksBelow(rows, stages, pos, index, before, j);
        }
      } else {
        NothingRests(rows, stages, index, k - 1);
      }
    }

    /** All rows that are left. Nothing else is left to call then. */
    method ToArray() returns (result: seq<T>)
      requires Valid()
      modifies this
      ensures Valid() && result == old(Left(|stages|))
      ensures forall k :: 0 <= k < |stages| ==> calls[k] == old(AllCalls(k))
    {
      result := [];
      while true
        invariant Valid() && result + Left(|stages|) == old(Left(|stages|))
        invariant forall k :: 0 <= k < |stages| ==> AllCalls(k) == old(AllCalls(k))
        decreases |rows| - pos
      {
        ghost var left := Left(|stages|);
        var step := Next(|stages|);
        if step.None? { break; }
        assert result + ([step.value] + Left(|stages|)) == result + [step.value] + Left(|stages|);
        result := result + [step.value];
      }
      forall k | 0 <= k <= |stages| ensures Left(k) == [] { NothingRests(rows, stages, index, k); }
    }
  }

  lemma EnumeratedCons<T>(row: T, rows: seq<T>, index: nat)
    ensures Enumerated([row] + rows, index) == [Call(row, index)] + Enumerated(rows, index + 1)
  {
    assert ([row] + rows)[1..] == rows;
  }

  /**
   Draining a chain of lazy stages gives what applying the stages to whole lists, one after
   the other, gives; and each stage's function was called once for every row that reaches the
   stage, in order, with the stage's own running index.
   */
  method Drain<T>(rows: seq<T>, stages: seq<Stage<T>>) returns (result: seq<T>, ghost calls: seq<seq<Call<T>>>)
    ensures result == Eager(stages, rows)
    ensures |calls| == |stages|
    ensures forall k :: 0 <= k < |stages| ==> calls[k] == Enumerated(Eager(stages[..k], rows), 0)
  {
    var lazy := new RowIterator(rows, stages);
    result := lazy.ToArray();
    calls := lazy.calls;
    assert stages[..|stages|] == stages;
  }
}
