/**
 Reading the entries of a cursor batch: the paging of a cursor, the decoder that
 puts a batch result together again, and the form every list of entries has.
 */
module Cursors {
  import opened NativeTypes
  import opened Executor

  function Flatten<T>(pages: seq<seq<T>>): seq<T> {
    if pages == [] then [] else pages[0] + Flatten(pages[1..])
  }

  function Sum(counts: seq<uint32>): nat {
    if counts == [] then 0 else counts[0] + Sum(counts[1..])
  }

  // ── Paging ──

  class Cursor<T> {
    const entries: seq<T>
    var pos: nat
    var done: bool

    ghost predicate Valid()
      reads this
    {
      pos <= |entries|
    }

    /** What has not been fetched yet. */
    ghost function Remaining(): seq<T>
      reads this
      requires Valid()
    {
      entries[pos..]
    }

    constructor (entries: seq<T>)
      ensures Valid() && this.entries == entries && Remaining() == entries && !done
    {
      this.entries, pos, done := entries, 0, false;
    }

    method Fetch(maxCount: uint32) returns (out: seq<T>, exhausted: bool)
      requires Valid()
      modifies this
      ensures Valid() && done == exhausted
      ensures out + Remaining() == old(Remaining())
      ensures |out| == Min(maxCount, |old(Remaining())|)
      ensures exhausted <==> Remaining() == []
    {
      var end := pos + maxCount;
      if end > |entries| { end := |entries|; }
      out := entries[pos..end];
      pos := end;
      done := pos >= |entries|;
      exhausted := done;
    }

    /** The fetches a client may ask for, one with each of the counts in turn. */
    method FetchEach(counts: seq<uint32>) returns (pages: seq<seq<T>>, exhausted: seq<bool>)
      requires Valid()
      modifies this
      ensures Valid()
      ensures Pages(old(Remaining()), counts, pages, exhausted)
      ensures Flatten(pages) + Remaining() == old(Remaining())
    {
      hide Flatten, Sum, PageIs;
      pages, exhausted := [], [];
      FlattenNone<T>();
      for i := 0 to |counts|
        invariant Valid()
        invariant |pages| == |exhausted| == i
        invariant Flatten(pages) + Remaining() == old(Remaining())
        invariant Pages(old(Remaining()), counts[..i], pages, exhausted)
      {
        var page, end := Fetch(counts[i]);
        PagesSnoc(old(Remaining()), counts[..i], pages, exhausted, counts[i], page, end);
        assert counts[..i] + [counts[i]] == counts[..i + 1];
        FlattenSnoc(pages, page);
        pages, exhausted := pages + [page], exhausted + [end];
      }
      assert counts[..|counts|] == counts;
    }
  }

  /** What fetching the counts in turn must return when `entries` are left to fetch. */
  ghost predicate Pages<T>(entries: seq<T>, counts: seq<uint32>, pages: seq<seq<T>>, exhausted: seq<bool>) {
    && |pages| == |exhausted| == |counts|
    && forall k :: 0 <= k < |counts| ==> PageIs(entries, counts, pages, exhausted, k)
  }

  /** Page k takes up where the pages before it stopped; it is marked the last exactly when nothing is left. */
  ghost predicate PageIs<T>(entries: seq<T>, counts: seq<uint32>, pages: seq<seq<T>>, exhausted: seq<bool>, k: nat)
    requires k < |counts| == |pages| == |exhausted|
  {
    && Flatten(pages[..k + 1]) == entries[..Min(Sum(counts[..k + 1]), |entries|)]
    && (exhausted[k] <==> Sum(counts[..k + 1]) >= |entries|)
  }

  lemma FlattenNone<T>()
    ensures Flatten<T>([]) == []
  {
  }

  lemma {:induction false} FlattenSnoc<T>(pages: seq<seq<T>>, page: seq<T>)
    ensures Flatten(pages + [page]) == Flatten(pages) + page
  {
    if pages == [] {
      assert [page][1..] == [];
    } else {
      FlattenSnoc(pages[1..], page);
      assert (pages + [page])[1..] == pages[1..] + [page];
    }
  }

  lemma {:induction false} SumSnoc(counts: seq<uint32>, count: uint32)
    ensures Sum(counts + [count]) == Sum(counts) + count
  {
    if counts == [] {
      assert [count][1..] == [];
    } else {
      SumSnoc(counts[1..], count);
      assert (counts + [count])[1..] == counts[1..] + [count];
    }
  }

  lemma PagesSnoc<T>(entries: seq<T>, counts: seq<uint32>, pages: seq<seq<T>>, exhausted: seq<bool>,
                     count: uint32, page: seq<T>, end: bool)
    requires Pages(entries, counts, pages, exhausted)
    requires Flatten(pages) <= entries && page <= entries[|Flatten(pages)|..]
    requires |page| == Min(count, |entries| - |Flatten(pages)|)
    requires end <==> |Flatten(pages)| + |page| == |entries|
    ensures Pages(entries, counts + [count], pages + [page], exhausted + [end])
  {
    var counts', pages', exhausted' := counts + [count], pages + [page], exhausted + [end];
    forall k | 0 <= k < |counts'| ensures PageIs(entries, counts', pages', exhausted', k) {
      if k < |counts| {
        assert PageIs(entries, counts, pages, exhausted, k);
        assert counts'[..k + 1] == counts[..k + 1] && pages'[..k + 1] == pages[..k + 1];
      } else {
        AllSoFar(entries, counts, pages, exhausted);
        assert counts'[..k + 1] == counts' && pages'[..k + 1] == pages';
        FlattenSnoc(pages, page);
        SumSnoc(counts, count);
      }
    }
  }

  /** All pages together are the first entries, as many as the counts allow. */
  lemma AllSoFar<T>(entries: seq<T>, counts: seq<uint32>, pages: seq<seq<T>>, exhausted: seq<bool>)
    requires Pages(entries, counts, pages, exhausted)
    ensures Flatten(pages) == entries[..Min(Sum(counts), |entries|)]
    ensures counts != [] && Sum(counts) >= |entries| ==> exhausted[|counts| - 1]
  {
    if counts != [] {
      assert PageIs(entries, counts, pages, exhausted, |counts| - 1);
      assert counts[..|counts|] == counts && pages[..|pages|] == pages;
    }
  }

  lemma {:induction false} SumGrows(counts: seq<uint32>, j: nat, k: nat)
    requires j <= k <= |counts|
    ensures Sum(counts[..j]) <= Sum(counts[..k])
  {
    if j < k {
      SumGrows(counts, j, k - 1);
      SumSnoc(counts[..k - 1], counts[k - 1]);
      assert counts[..k - 1] + [counts[k - 1]] == counts[..k];
    }
  }

  lemma {:induction false} FlattenPrefix<T>(pages: seq<seq<T>>, k: nat)
    requires k < |pages|
    ensures Flatten(pages[..k + 1]) == Flatten(pages[..k]) + pages[k]
  {
    FlattenSnoc(pages[..k], pages[k]);
    assert pages[..k] + [pages[k]] == pages[..k + 1];
  }

  /** After the page marked the last every page is empty, and marked the last too. */
  lemma NothingAfterTheLast<T>(entries: seq<T>, counts: seq<uint32>, pages: seq<seq<T>>, exhausted: seq<bool>, j: nat, k: nat)
    requires Pages(entries, counts, pages, exhausted)
    requires j < k < |counts| && exhausted[j]
    ensures pages[k] == [] && exhausted[k]
  {
    assert PageIs(entries, counts, pages, exhausted, j);
    assert PageIs(entries, counts, pages, exhausted, k - 1);
    assert PageIs(entries, counts, pages, exhausted, k);
    SumGrows(counts, j + 1, k);
    SumGrows(counts, j + 1, k + 1);
    FlattenPrefix(pages, k);
  }

  // ── Decoding ──

  datatype OpenStep = OpenStep(step: uint32, cols: seq<Col>, rows: seq<seq<Value>>)

  /** What a reader of a cursor has put together so far. */
  datatype Decoded = Decoded(
    results: seq<Option<StmtResult>>, errors: seq<Option<string>>, current: Option<OpenStep>, failure: Option<string>)

  function DecodeEntry(d: Decoded, e: Entry): (d': Decoded)
    ensures |d'.results| == |d.results| && |d'.errors| == |d.errors|
  {
    match e
    case StepBegin(step, cols) => d.(current := Some(OpenStep(step, cols, [])))
    case Row(row) =>
      if d.current.None? then d
      else d.(current := Some(d.current.value.(rows := d.current.value.rows + [row])))
    case StepEnd(affected, lastRowid) =>
      if d.current.None? || d.current.value.step >= |d.results| then d
      else
        var o := d.current.value;
        var result := StmtResult(o.cols, o.rows, affected, lastRowid, |o.rows|, affected);
        d.(results := d.results[o.step := Some(result)], current := None)
    case StepError(step, message) =>
      if step >= |d.errors| then d
      else d.(errors := d.errors[step := Some(message)], current := None)
    case Failure(message) => d.(failure := Some(message))
  }

  function DecodeOnto(d: Decoded, entries: seq<Entry>): (d': Decoded)
    ensures |d'.results| == |d.results| && |d'.errors| == |d.errors|
    decreases entries
  {
    if entries == [] then d else DecodeOnto(DecodeEntry(d, entries[0]), entries[1..])
  }

  function Decode(entries: seq<Entry>, steps: nat): (d: Decoded)
    ensures |d.results| == |d.errors| == steps
  {
    DecodeOnto(Decoded(seq(steps, _ => None), seq(steps, _ => None), None, None), entries)
  }

  lemma {:induction false} DecodeInTurn(d: Decoded, a: seq<Entry>, b: seq<Entry>)
    ensures DecodeOnto(d, a + b) == DecodeOnto(DecodeOnto(d, a), b)
    decreases a
  {
    if a == [] {
      assert a + b == b;
    } else {
      assert (a + b)[1..] == a[1..] + b;
      DecodeInTurn(DecodeEntry(d, a[0]), a[1..], b);
    }
  }

  lemma DecodeOne(d: Decoded, e: Entry)
    ensures DecodeOnto(d, [e]) == DecodeEntry(d, e)
  {
    assert DecodeOnto(DecodeEntry(d, e), [e][1..]) == DecodeEntry(d, e);
  }

  lemma {:induction false} DecodeRows(d: Decoded, rows: seq<seq<Value>>)
    requires d.current.Some?
    ensures DecodeOnto(d, RowEntries(rows)) == d.(current := Some(d.current.value.(rows := d.current.value.rows + rows)))
    decreases rows
  {
    hide DecodeOnto;
    if rows == [] {
      assert RowEntries(rows) == [];
      DecodeNone(d);
      assert d.current.value.rows + rows == d.current.value.rows;
    } else {
      var first, rest := [Row(rows[0])], RowEntries(rows[1..]);
      assert RowEntries(rows) == first + rest;
      DecodeInTurn(d, first, rest);
      DecodeOne(d, Row(rows[0]));
      DecodeRows(DecodeEntry(d, Row(rows[0])), rows[1..]);
      assert d.current.value.rows + [rows[0]] + rows[1..] == d.current.value.rows + rows;
    }
  }

  lemma DecodeNone(d: Decoded)
    ensures DecodeOnto(d, []) == d
  {
  }

  // ── The form of a cursor ──

  /** A reader that follows the grammar of cursor entries; `next` is the least step that may come. */
  datatype Reader = Reader(next: nat, width: Option<nat>, over: bool) | Lost

  function ReadEntry(r: Reader, e: Entry): Reader {
    match r
    case Lost => Lost
    case Reader(next, width, over) =>
      if over then Lost
      else match e
        case StepBegin(step, cols) => if width.None? && step >= next then Reader(step + 1, Some(|cols|), false) else Lost
        case Row(row) => if width == Some(|row|) then r else Lost
        case StepEnd(_, _) => if width.Some? then Reader(next, None, false) else Lost
        case StepError(step, _) =>
          if width.Some? && step + 1 == next then Reader(next, None, false)
          else if width.None? && step >= next then Reader(step + 1, None, false)
          else Lost
        case Failure(_) => if width.None? then Reader(next, None, true) else Lost
  }

  function ReadOnto(r: Reader, entries: seq<Entry>): Reader
    decreases entries
  {
    if entries == [] then r else ReadOnto(ReadEntry(r, entries[0]), entries[1..])
  }

  lemma {:induction false} ReadInTurn(r: Reader, a: seq<Entry>, b: seq<Entry>)
    ensures ReadOnto(r, a + b) == ReadOnto(ReadOnto(r, a), b)
    decreases a
  {
    if a == [] {
      assert a + b == b;
    } else {
      assert (a + b)[1..] == a[1..] + b;
      ReadInTurn(ReadEntry(r, a[0]), a[1..], b);
    }
  }

  lemma ReadOne(r: Reader, e: Entry)
    ensures ReadOnto(r, [e]) == ReadEntry(r, e)
  {
    assert ReadOnto(ReadEntry(r, e), [e][1..]) == ReadEntry(r, e);
  }

  lemma {:induction false} ReadRows(r: Reader, rows: seq<seq<Value>>)
    requires r.Reader? && !r.over
    requires forall k :: 0 <= k < |rows| ==> r.width == Some(|rows[k]|)
    ensures ReadOnto(r, RowEntries(rows)) == r
  {
    if rows != [] {
      assert RowEntries(rows)[1..] == RowEntries(rows[1..]);
      ReadRows(r, rows[1..]);
    }
  }
}
