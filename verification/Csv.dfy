/**
 Printing a result as CSV, and a reader that follows section 2 of RFC 4180 with a line
 feed as its line break: fields between commas, quoted when they have to be, a quote
 inside quotes written twice.
 */
module Csv {
  import opened NativeTypes

  /** A value of a row: absent, or the text it prints as. */
  datatype RowValue = Null | Shown(text: string)

  datatype ResultSet = ResultSet(columns: seq<string>, rows: seq<map<string, RowValue>>)

  // ── Printing ──

  function Doubled(s: string): string {
    if s == "" then "" else (if s[0] == '"' then "\"\"" else [s[0]]) + Doubled(s[1..])
  }

  predicate NeedsQuotes(s: string) {
    ',' in s || '"' in s || '\n' in s || '\r' in s
  }

  function EscapeText(s: string): string {
    if NeedsQuotes(s) then "\"" + Doubled(s) + "\"" else s
  }

  function FieldText(value: RowValue): string {
    if value.Null? then "" else value.text
  }

  function EscapeField(value: RowValue): string {
    if value.Null? then "" else EscapeText(value.text)
  }

  function Escaped(fields: seq<string>): seq<string> {
    if fields == [] then [] else [EscapeText(fields[0])] + Escaped(fields[1..])
  }

  function PrintRecord(fields: seq<string>): string {
    Join(Escaped(fields), ',')
  }

  function Lines(records: seq<seq<string>>): seq<string> {
    if records == [] then [] else [PrintRecord(records[0])] + Lines(records[1..])
  }

  function Print(records: seq<seq<string>>): string {
    Join(Lines(records), '\n')
  }

  /** The texts of a row's fields, a column the row lacks printing as an empty one. */
  function RowTexts(columns: seq<string>, row: map<string, RowValue>): seq<string> {
    if columns == [] then []
    else [FieldText(if columns[0] in row then row[columns[0]] else Null)] + RowTexts(columns[1..], row)
  }

  function AllRowTexts(columns: seq<string>, rows: seq<map<string, RowValue>>): seq<seq<string>> {
    if rows == [] then [] else [RowTexts(columns, rows[0])] + AllRowTexts(columns, rows[1..])
  }

  /** The table of texts a result prints: the column names, then the rows. */
  function Texts(result: ResultSet): seq<seq<string>> {
    [result.columns] + AllRowTexts(result.columns, result.rows)
  }

  /** The table has the column names first, and then a record for every row, each column's text in its place. */
  lemma TextsAreInPlace(result: ResultSet)
    ensures var t := Texts(result);
      && |t| == |result.rows| + 1 && t[0] == result.columns
      && forall i, j {:trigger t[i + 1][j]} :: 0 <= i < |result.rows| && 0 <= j < |result.columns| ==>
           |t[i + 1]| == |result.columns| && IsTextOf(t[i + 1][j], result.rows[i], result.columns[j])
  {
    var t := Texts(result);
    RowTextsInPlace(result.columns, result.rows);
    forall i, j | 0 <= i < |result.rows| && 0 <= j < |result.columns|
      ensures |t[i + 1]| == |result.columns| && IsTextOf(t[i + 1][j], result.rows[i], result.columns[j])
    {
      FieldTextsInPlace(result.columns, result.rows[i]);
    }
  }

  /** A value is shown as its text; a column the row lacks, and one without a value, as nothing. */
  predicate IsTextOf(text: string, row: map<string, RowValue>, column: string) {
    text == if column in row && row[column].Shown? then row[column].text else ""
  }

  lemma {:induction false} FieldTextsInPlace(columns: seq<string>, row: map<string, RowValue>)
    ensures |RowTexts(columns, row)| == |columns|
    ensures forall j :: 0 <= j < |columns| ==> IsTextOf(RowTexts(columns, row)[j], row, columns[j])
  {
    if columns != [] { FieldTextsInPlace(columns[1..], row); }
  }

  lemma {:induction false} RowTextsInPlace(columns: seq<string>, rows: seq<map<string, RowValue>>)
    ensures |AllRowTexts(columns, rows)| == |rows|
    ensures forall i :: 0 <= i < |rows| ==> AllRowTexts(columns, rows)[i] == RowTexts(columns, rows[i])
  {
    if rows != [] { RowTextsInPlace(columns, rows[1..]); }
  }

  /** A field is quoted exactly when it holds a comma, a quote or a line break, and is printed as it is otherwise. */
  lemma QuotedWhenNeeded(s: string)
    ensures EscapeText(s) == s <==> !(exists c :: c in s && (c == ',' || c == '"' || c == '\n' || c == '\r'))
    ensures EscapeText(s) != s ==>
      |EscapeText(s)| >= 2 && EscapeText(s)[0] == '"' && EscapeText(s)[|EscapeText(s)| - 1] == '"'
  {
    DoubledIsNoShorter(s);
  }

  lemma {:induction false} DoubledIsNoShorter(s: string)
    ensures |Doubled(s)| >= |s|
  {
    if s != "" { DoubledIsNoShorter(s[1..]); }
  }

  /** The escaped fields of a row. */
  method EscapeRow(columns: seq<string>, row: map<string, RowValue>) returns (fields: seq<string>)
    ensures fields == Escaped(RowTexts(columns, row))
  {
    NothingToEscape();
    hide EscapeText;
    fields := [];
    for i := 0 to |columns|
      invariant fields + Escaped(RowTexts(columns[i..], row)) == Escaped(RowTexts(columns, row))
    {
      assert columns[i..][0] == columns[i] && columns[i..][1..] == columns[i + 1..];
      var value := if columns[i] in row then row[columns[i]] else Null;
      fields := fields + [EscapeField(value)];
    }
    assert fields + [] == fields;
  }

  lemma NothingToEscape()
    ensures EscapeText("") == ""
  {
  }

  method ResultSetToCsv(result: ResultSet) returns (csv: string)
    ensures csv == Print(Texts(result))
  {
    hide Escaped, Join, RowTexts;
    var lines := [PrintRecord(result.columns)];
    for i := 0 to |result.rows|
      invariant lines + Lines(AllRowTexts(result.columns, result.rows[i..])) == Lines(Texts(result))
    {
      assert result.rows[i..][0] == result.rows[i] && result.rows[i..][1..] == result.rows[i + 1..];
      var fields := EscapeRow(result.columns, result.rows[i]);
      lines := lines + [Join(fields, ',')];
    }
    assert lines + [] == lines;
    return Join(lines, '\n');
  }

  // ── Reading ──

  /** What was read, and what is left to read. */
  datatype Read<+T> = Read(value: T, rest: string) | Malformed

  predicate EndsField(s: string) {
    s == "" || s[0] == ',' || s[0] == '\n'
  }

  function ReadPlain(s: string): Read<string> {
    if EndsField(s) then Read("", s)
    else if s[0] == '"' then Malformed
    else match ReadPlain(s[1..])
      case Read(field, rest) => Read([s[0]] + field, rest)
      case Malformed => Malformed
  }

  function ReadQuoted(s: string): Read<string> {
    if s == "" then Malformed
    else if s[0] != '"' then
      (match ReadQuoted(s[1..])
       case Read(field, rest) => Read([s[0]] + field, rest)
       case Malformed => Malformed)
    else if |s| > 1 && s[1] == '"' then
      (match ReadQuoted(s[2..])
       case Read(field, rest) => Read("\"" + field, rest)
       case Malformed => Malformed)
    else Read("", s[1..])
  }

  function ReadField(s: string): Read<string> {
    if s != "" && s[0] == '"' then ReadQuoted(s[1..]) else ReadPlain(s)
  }

  lemma {:induction false} PlainShrinks(s: string)
    ensures ReadPlain(s).Read? ==> |ReadPlain(s).rest| <= |s|
  {
    if !EndsField(s) && s[0] != '"' { PlainShrinks(s[1..]); }
  }

  lemma {:induction false} QuotedShrinks(s: string)
    ensures ReadQuoted(s).Read? ==> |ReadQuoted(s).rest| <= |s|
  {
    if s != "" && s[0] != '"' { QuotedShrinks(s[1..]); }
    if |s| > 1 && s[0] == '"' && s[1] == '"' { QuotedShrinks(s[2..]); }
  }

  lemma FieldShrinks(s: string)
    ensures ReadField(s).Read? ==> |ReadField(s).rest| <= |s|
  {
    PlainShrinks(s);
    if s != "" { QuotedShrinks(s[1..]); }
  }

  function ReadRecord(s: string): Read<seq<string>>
    decreases |s|
  {
    FieldShrinks(s);
    match ReadField(s)
    case Malformed => Malformed
    case Read(field, rest) =>
      if rest == "" || rest[0] == '\n' then Read([field], rest)
      else if rest[0] == ',' then
        (match ReadRecord(rest[1..])
         case Read(fields, rest') => Read([field] + fields, rest')
         case Malformed => Malformed)
      else Malformed
  }

  lemma {:induction false} RecordShrinks(s: string)
    ensures ReadRecord(s).Read? ==> |ReadRecord(s).rest| <= |s|
    decreases |s|
  {
    FieldShrinks(s);
    var f := ReadField(s);
    if f.Read? && f.rest != "" && f.rest[0] == ',' { RecordShrinks(f.rest[1..]); }
  }

  function ReadTable(s: string): Option<seq<seq<string>>>
    decreases |s|
  {
    RecordShrinks(s);
    match ReadRecord(s)
    case Malformed => None
    case Read(record, rest) =>
      if rest == "" then Some([record])
      else if rest[0] != '\n' then None
      else match ReadTable(rest[1..])
        case None => None
        case Some(records) => Some([record] + records)
  }

  // ── Reading back ──

  lemma {:induction false} PlainReadsBack(field: string, rest: string)
    requires !NeedsQuotes(field) && EndsField(rest)
    ensures ReadPlain(field + rest) == Read(field, rest)
  {
    if field == "" {
      assert field + rest == rest;
    } else {
      assert (field + rest)[0] == field[0] && (field + rest)[1..] == field[1..] + rest;
      PlainReadsBack(field[1..], rest);
      assert [field[0]] + field[1..] == field;
    }
  }

  lemma {:induction false} QuotedReadsBack(field: string, rest: string)
    requires EndsField(rest)
    ensures ReadQuoted(Doubled(field) + "\"" + rest) == Read(field, rest)
  {
    var s := Doubled(field) + "\"" + rest;
    if field == "" {
      assert s == "\"" + rest && s[1..] == rest;
      if |s| > 1 { assert s[1] == rest[0]; }
    } else {
      var tail := Doubled(field[1..]) + "\"" + rest;
      QuotedReadsBack(field[1..], rest);
      assert [field[0]] + field[1..] == field;
      if field[0] == '"' {
        assert s == "\"\"" + tail && s[2..] == tail;
      } else {
        assert s == [field[0]] + tail && s[1..] == tail;
      }
    }
  }

  lemma FieldReadsBack(field: string, rest: string)
    requires EndsField(rest)
    ensures ReadField(EscapeText(field) + rest) == Read(field, rest)
  {
    hide Doubled, ReadQuoted, ReadPlain, NeedsQuotes;
    if NeedsQuotes(field) {
      QuotedReadsBack(field, rest);
      QuotesFirst(Doubled(field), rest);
    } else {
      PlainReadsBack(field, rest);
      StartsPlain(field, rest);
    }
  }

  lemma QuotesFirst(doubled: string, rest: string)
    ensures var s := "\"" + doubled + "\"" + rest; s[0] == '"' && s[1..] == doubled + "\"" + rest
  {
  }

  lemma StartsPlain(field: string, rest: string)
    requires !NeedsQuotes(field) && EndsField(rest)
    ensures field + rest != "" ==> (field + rest)[0] != '"'
  {
    if field != "" { assert (field + rest)[0] == field[0] && field[0] in field; }
  }

  lemma {:induction false} RecordReadsBack(fields: seq<string>, rest: string)
    requires fields != [] && (rest == "" || rest[0] == '\n')
    ensures ReadRecord(PrintRecord(fields) + rest) == Read(fields, rest)
    decreases |fields|
  {
    hide EscapeText, ReadField, PrintRecord;
    var s := PrintRecord(fields) + rest;
    var first := EscapeText(fields[0]);
    if |fields| == 1 {
      PrintsOne(fields[0]);
      assert fields == [fields[0]];
      assert s == first + rest;
      FieldReadsBack(fields[0], rest);
    } else {
      var others := PrintRecord(fields[1..]) + rest;
      PrintRecordSplits(fields);
      assert s == first + ("," + others);
      FieldReadsBack(fields[0], "," + others);
      RecordReadsBack(fields[1..], rest);
      assert ("," + others)[1..] == others;
      assert [fields[0]] + fields[1..] == fields;
    }
  }

  lemma PrintsOne(field: string)
    ensures PrintRecord([field]) == EscapeText(field)
  {
    assert Escaped([field]) == [EscapeText(field)];
  }

  lemma PrintRecordSplits(fields: seq<string>)
    requires |fields| > 1
    ensures PrintRecord(fields) == EscapeText(fields[0]) + "," + PrintRecord(fields[1..])
  {
    var e := Escaped(fields);
    assert e[1..] == Escaped(fields[1..]);
    assert |Escaped(fields[1..])| >= 1;
  }

  lemma PrintSplits(records: seq<seq<string>>)
    requires |records| > 1
    ensures Print(records) == PrintRecord(records[0]) + "\n" + Print(records[1..])
  {
    var l := Lines(records);
    assert l[1..] == Lines(records[1..]);
    assert |Lines(records[1..])| >= 1;
  }

  lemma OneLinePrints(records: seq<seq<string>>)
    requires |records| == 1
    ensures Print(records) == PrintRecord(records[0])
  {
    hide PrintRecord;
    assert Lines(records) == [PrintRecord(records[0])];
  }

  /** A reader that follows the quoting rules recovers every field of a table whose records have at least one. */
  lemma {:induction false} PrintedTablesReadBack(records: seq<seq<string>>)
    requires records != [] && forall r :: r in records ==> r != []
    ensures ReadTable(Print(records)) == Some(records)
    decreases |records|
  {
    hide PrintRecord, ReadRecord, Print;
    var first := PrintRecord(records[0]);
    assert records[0] in records;
    if |records| == 1 {
      OneLinePrints(records);
      assert first + "" == first;
      RecordReadsBack(records[0], "");
      assert records == [records[0]];
    } else {
      var others := Print(records[1..]);
      PrintSplits(records);
      assert Print(records) == first + ("\n" + others);
      RecordReadsBack(records[0], "\n" + others);
      assert forall r :: r in records[1..] ==> r in records;
      PrintedTablesReadBack(records[1..]);
      assert ("\n" + others)[1..] == others;
      assert [records[0]] + records[1..] == records;
    }
  }

  lemma {:induction false} RowsHaveAllColumns(columns: seq<string>, rows: seq<map<string, RowValue>>)
    ensures |AllRowTexts(columns, rows)| == |rows|
    ensures forall r :: r in AllRowTexts(columns, rows) ==> |r| == |columns|
  {
    if rows != [] {
      RowHasAllColumns(columns, rows[0]);
      RowsHaveAllColumns(columns, rows[1..]);
    }
  }

  lemma {:induction false} RowHasAllColumns(columns: seq<string>, row: map<string, RowValue>)
    ensures |RowTexts(columns, row)| == |columns|
  {
    if columns != [] { RowHasAllColumns(columns[1..], row); }
  }

  /** What is printed for a result with a column reads back as its texts. */
  lemma ResultsReadBack(result: ResultSet)
    requires result.columns != []
    ensures ReadTable(Print(Texts(result))) == Some(Texts(result))
  {
    RowsHaveAllColumns(result.columns, result.rows);
    var rows := AllRowTexts(result.columns, result.rows);
    forall r | r in Texts(result) ensures r != [] { assert r == result.columns || r in rows; }
    PrintedTablesReadBack(Texts(result));
  }

  /** Records as they print: one without fields looks like one with a single empty field. */
  function Padded(records: seq<seq<string>>): seq<seq<string>> {
    if records == [] then [] else [if records[0] == [] then [""] else records[0]] + Padded(records[1..])
  }

  lemma {:induction false} PaddedPrintsAlike(records: seq<seq<string>>)
    ensures Lines(Padded(records)) == Lines(records)
    ensures |Padded(records)| == |records| && forall r :: r in Padded(records) ==> r != []
    ensures (forall r :: r in records ==> r != []) ==> Padded(records) == records
  {
    if records == [] {
    } else {
      PaddedPrintsAlike(records[1..]);
      PrintsOne("");
      assert PrintRecord([]) == "" == PrintRecord([""]);
      hide PrintRecord;
      var first := if records[0] == [] then [""] else records[0];
      assert ([first] + Padded(records[1..]))[1..] == Padded(records[1..]);
      assert records[0] in records && forall r :: r in records[1..] ==> r in records;
    }
  }

  /** Of any result at all, with columns or without, what is printed reads back as its padded texts. */
  lemma AllResultsReadBack(result: ResultSet)
    ensures ReadTable(Print(Texts(result))) == Some(Padded(Texts(result)))
  {
    PaddedPrintsAlike(Texts(result));
    hide ReadTable, Join;
    PrintedTablesReadBack(Padded(Texts(result)));
  }

  /**
   So two results print alike exactly when their texts are the same up to padding, and with
   columns on both sides exactly when the texts are the same.
   */
  lemma PrintingIsInjective(a: ResultSet, b: ResultSet)
    ensures Print(Texts(a)) == Print(Texts(b)) <==> Padded(Texts(a)) == Padded(Texts(b))
    ensures a.columns != [] && b.columns != [] ==>
      (Print(Texts(a)) == Print(Texts(b)) <==> Texts(a) == Texts(b))
  {
    AllResultsReadBack(a);
    AllResultsReadBack(b);
    PaddedPrintsAlike(Texts(a));
    PaddedPrintsAlike(Texts(b));
    if a.columns != [] && b.columns != [] {
      ResultsReadBack(a);
      ResultsReadBack(b);
    }
  }

  /** Without a column it is not: no column and one column without a name print alike. */
  lemma NoColumnsPrintLikeOneEmpty()
    ensures Print(Texts(ResultSet([], []))) == Print(Texts(ResultSet([""], [])))
    ensures Texts(ResultSet([], [])) != Texts(ResultSet([""], []))
  {
    var none, one := Texts(ResultSet([], [])), Texts(ResultSet([""], []));
    assert none == [[]] && one == [[""]];
    assert |none[0]| != |one[0]|;
    assert Escaped([""]) == [""] && Lines(one) == [""] && Lines(none) == [""];
  }
}
