/** `parseCSV`, which the Dashboard, Mapping and NAMASTE Codes pages each
    define in the same words: the first line holds the column names, every
    later line becomes a row object keyed by those names. Cells are split at
    every comma (no quoting) and trimmed. */
module Csv {
  import opened Wrappers
  import opened Seqs
  import opened Text

  /** A row object: a column name maps to its cell, or to `undefined` (None)
      when the line has fewer cells than there are columns. */
  type Row = map<string, Option<string>>

  /** The cells of a line: split at every comma, each cell trimmed. */
  function Cells(line: string): (r: seq<string>)
    ensures |r| >= 1
  {
    Map(Split(line, ','), Trim)
  }

  /** `cols[i]`: undefined beyond the last cell. */
  function CellAt(cols: seq<string>, i: nat): Option<string> {
    if i < |cols| then Some(cols[i]) else None
  }

  /** Among the first `n` columns, column `k` is the last with its name. */
  predicate LastWithName(headers: seq<string>, n: nat, k: nat) {
    k < n <= |headers| && forall j :: k < j < n ==> headers[j] != headers[k]
  }

  /** The names of the first `n` columns. */
  function NamesBefore(headers: seq<string>, n: nat): set<string>
    requires n <= |headers|
  {
    set j | 0 <= j < n :: headers[j]
  }

  /** The first `n` columns are in the row: one key per name, holding the
      cell of the last of those columns with that name. */
  predicate FilledUpTo(row: Row, headers: seq<string>, cols: seq<string>, n: nat)
    requires n <= |headers|
  {
    && row.Keys == NamesBefore(headers, n)
    && forall k :: 0 <= k < n && LastWithName(headers, n, k) ==> row[headers[k]] == CellAt(cols, k)
  }

  /** The row built by assigning each column name its cell. */
  predicate IsRowOf(row: Row, headers: seq<string>, cols: seq<string>) {
    FilledUpTo(row, headers, cols, |headers|)
  }

  /** Assigning the next column keeps the row filled up to one more column. */
  lemma FillStep(row: Row, headers: seq<string>, cols: seq<string>, i: nat)
    requires i < |headers| && FilledUpTo(row, headers, cols, i)
    ensures FilledUpTo(row[headers[i] := CellAt(cols, i)], headers, cols, i + 1)
  {
    var next := row[headers[i] := CellAt(cols, i)];
    assert NamesBefore(headers, i + 1) == NamesBefore(headers, i) + {headers[i]};
    forall k | 0 <= k < i + 1 && LastWithName(headers, i + 1, k)
      ensures next[headers[k]] == CellAt(cols, k)
    {
      if k < i {
        assert LastWithName(headers, i, k) && headers[k] != headers[i];
      }
    }
  }

  /** The row the per-column assignments leave: the
      assignments in column order, a later column overwriting an earlier one
      of the same name. */
  function RowOf(headers: seq<string>, cols: seq<string>): Row {
    if headers == [] then map[]
    else RowOf(headers[..|headers| - 1], cols)[headers[|headers| - 1] := CellAt(cols, |headers| - 1)]
  }

  /** The assignments leave one key per column name, holding the cell of the
      last column with that name. */
  lemma {:induction false} RowOfIsRow(headers: seq<string>, cols: seq<string>)
    ensures IsRowOf(RowOf(headers, cols), headers, cols)
  {
    RowOfPrefix(headers, cols, |headers|);
    assert headers[..|headers|] == headers;
  }

  lemma {:induction false} RowOfPrefix(headers: seq<string>, cols: seq<string>, n: nat)
    requires n <= |headers|
    ensures FilledUpTo(RowOf(headers[..n], cols), headers, cols, n)
  {
    if n == 0 {
      assert NamesBefore(headers, 0) == {};
    } else {
      RowOfPrefix(headers, cols, n - 1);
      assert headers[..n][..n - 1] == headers[..n - 1];
      FillStep(RowOf(headers[..n - 1], cols), headers, cols, n - 1);
    }
  }

  method FillRow(headers: seq<string>, cols: seq<string>) returns (row: Row)
    ensures row == RowOf(headers, cols)
    ensures IsRowOf(row, headers, cols)
  {
    row := map[];
    var i := 0;
    while i < |headers|
      invariant 0 <= i <= |headers|
      invariant row == RowOf(headers[..i], cols)
    {
      assert headers[..i + 1][..i] == headers[..i];
      row := row[headers[i] := CellAt(cols, i)];
      i := i + 1;
    }
    assert headers[..i] == headers;
    RowOfIsRow(headers, cols);
  }

  /** `text.trim().split(/\r?\n/)` */
  function TextLines(text: string): (r: seq<string>)
    ensures |r| >= 1
  {
    Lines(Trim(text))
  }

  /** The column names: the trimmed cells of the first line. */
  function Headers(text: string): seq<string> {
    Cells(TextLines(text)[0])
  }

  /** The rows of the data lines under the column names. */
  function RowsOf(headers: seq<string>, data: seq<string>): (rows: seq<Row>)
    ensures |rows| == |data|
  {
    seq(|data|, k requires 0 <= k < |data| => RowOf(headers, Cells(data[k])))
  }

  /** The rows `parseCSV(text)` returns. */
  function Parsed(text: string): (rows: seq<Row>)
    ensures |rows| == |TextLines(text)| - 1
  {
    RowsOf(Headers(text), TextLines(text)[1..])
  }

  /** Every parsed row holds, under each column name, the cell of the last
      column with that name. */
  lemma ParsedRows(text: string)
    ensures forall k :: 0 <= k < |Parsed(text)| ==> IsRowOf(Parsed(text)[k], Headers(text), Cells(TextLines(text)[k + 1]))
  {
    forall k | 0 <= k < |Parsed(text)|
      ensures IsRowOf(Parsed(text)[k], Headers(text), Cells(TextLines(text)[k + 1]))
    {
      RowOfIsRow(Headers(text), Cells(TextLines(text)[k + 1]));
    }
  }

  /** `parseCSV(text)`: one row per line after the first. */
  method ParseCSV(text: string) returns (rows: seq<Row>)
    ensures rows == Parsed(text)
  {
    var lines := TextLines(text);
    var headers := Cells(lines[0]);
    rows := ParseRows(headers, lines[1..]);
    assert headers == Headers(text);
  }

  /** The loop of `parseCSV` over the data lines: one row per line, each
      filled under the column names. */
  method ParseRows(headers: seq<string>, data: seq<string>) returns (rows: seq<Row>)
    ensures rows == RowsOf(headers, data)
  {
    ghost var all := RowsOf(headers, data);
    rows := [];
    var k := 0;
    while k < |data|
      invariant 0 <= k <= |data|
      invariant rows == all[..k]
    {
      var row := FillRow(headers, Cells(data[k]));
      PrefixSnoc(all, k);
      rows := rows + [row];
      k := k + 1;
    }
    assert all[..k] == all;
  }

  /** `row[key]`, reading an absent key as undefined. */
  function Field(row: Row, key: string): Option<string> {
    if key in row then row[key] else None
  }

  /** `row[key] || ""` */
  function FieldOr(row: Row, key: string): string {
    Field(row, key).GetOr("")
  }
}
