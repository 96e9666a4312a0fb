/** The column lookup of the build script: `colIndex`, filled from the header row,
    and `getCell`, which reads one answer of a row by its header name. */
module Columns {
  import opened Text

  /** One spreadsheet row: its cells, in column order. */
  type Row = seq<string>

  /** What `headers.forEach((h, i) => { colIndex[h] = i; })` leaves in `colIndex`:
      every header name maps to the LAST column carrying it, since later
      assignments overwrite earlier ones. */
  function ColumnIndex(headers: seq<string>): (idx: map<string, nat>)
    ensures forall h :: h in idx <==> h in headers
    ensures forall h :: h in idx ==> idx[h] < |headers| && headers[idx[h]] == h
    ensures forall h, j :: h in idx && idx[h] < j < |headers| ==> headers[j] != h
  {
    if headers == [] then map[]
    else
      var n := |headers| - 1;
      var prev := ColumnIndex(headers[..n]);
      assert headers == headers[..n] + [headers[n]];
      prev[headers[n] := n]
  }

  /** The `forEach` loop that fills `colIndex`. */
  method BuildColumnIndex(headers: seq<string>) returns (idx: map<string, nat>)
    ensures idx == ColumnIndex(headers)
  {
    idx := map[];
    for i := 0 to |headers|
      invariant idx == ColumnIndex(headers[..i])
    {
      assert headers[..i + 1][..i] == headers[..i];
      idx := idx[headers[i] := i];
    }
    assert headers[..|headers|] == headers;
  }

  /** `getCell(row, colName)`: the cell under the named column, trimmed; the
      empty string when no column has that name or the row is too short. */
  function GetCell(idx: map<string, nat>, row: Row, name: string): (cell: string)
    ensures IsTrimmed(cell)
    ensures cell != [] ==> name in idx && idx[name] < |row|
  {
    if name in idx && idx[name] < |row| then Trim(row[idx[name]]) else []
  }

  /** Reading a cell by header name, in terms of the header row itself: an absent
      name gives "", and a present one reads the last column of that name, or ""
      when the row stops before it. */
  lemma CellByHeader(headers: seq<string>, row: Row, name: string, j: nat)
    requires j < |headers| && headers[j] == name
    requires forall k :: j < k < |headers| ==> headers[k] != name
    ensures GetCell(ColumnIndex(headers), row, name) == if j < |row| then Trim(row[j]) else []
  {
    assert name in ColumnIndex(headers);
  }

  /** A name that heads no column reads as "" in every row. */
  lemma MissingColumnIsEmpty(headers: seq<string>, row: Row, name: string)
    requires name !in headers
    ensures GetCell(ColumnIndex(headers), row, name) == []
  {
  }
}
