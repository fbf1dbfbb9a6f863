/**
 * The part of an ExcelJS workbook the spreadsheet scripts use
 * (output/updateExcelWithRemarks.js, src/excelLogger.js): named worksheets,
 * each a list of rows of cell values, where row 1 holds the column headers.
 * A row added from an object is stored with its values in the order of the
 * columns the scripts declare.
 */
module Sheets {
  import opened Wrappers

  /** A cell value: empty, a text, or a number. */
  datatype Cell = Empty | Text(text: string) | Number(value: int)

  type Row = seq<Cell>

  /** The instructor's tab that both spreadsheet scripts write to. */
  const InstructorTab: string := "Jamal Taylor"

  /** `row.getCell(n).value`, counting from 1: a cell past the end of the row is empty. */
  function CellAt(row: Row, n: nat): Cell
    requires n >= 1
  {
    if n <= |row| then row[n - 1] else Empty
  }

  /** The row after `row.getCell(n).value = v`: a shorter row grows with empty cells. */
  function SetCellIn(row: Row, n: nat, v: Cell): (r: Row)
    requires n >= 1
    ensures |r| == if n <= |row| then |row| else n
    ensures CellAt(r, n) == v
    ensures forall m :: 1 <= m && m != n ==> CellAt(r, m) == CellAt(row, m)
  {
    if n <= |row| then row[n - 1 := v] else row + seq(n - 1 - |row|, _ => Empty) + [v]
  }

  /** The header row that `worksheet.columns = [...]` writes. */
  function HeaderRow(headers: seq<string>): (r: Row)
    ensures |r| == |headers| && forall k :: 0 <= k < |headers| ==> r[k] == Text(headers[k])
  {
    seq(|headers|, k requires 0 <= k < |headers| => Text(headers[k]))
  }

  /** A row with at least one value. */
  predicate HasValues(row: Row) {
    exists k :: 0 <= k < |row| && row[k] != Empty
  }

  /** `worksheet.actualRowCount`: the number of rows that hold a value. */
  function ActualRowCount(rows: seq<Row>): (n: nat)
    ensures n <= |rows|
  {
    if rows == [] then 0
    else ActualRowCount(rows[..|rows| - 1]) + (if HasValues(rows[|rows| - 1]) then 1 else 0)
  }

  /** When every row holds a value, the count is the number of rows. */
  lemma {:induction false} AllRowsCounted(rows: seq<Row>)
    requires forall k :: 0 <= k < |rows| ==> HasValues(rows[k])
    ensures ActualRowCount(rows) == |rows|
    decreases |rows|
  {
    if rows != [] {
      var init := rows[..|rows| - 1];
      assert forall k :: 0 <= k < |init| ==> init[k] == rows[k];
      AllRowsCounted(init);
    }
  }

  class Worksheet {
    const name: string
    var rows: seq<Row>

    /** `workbook.addWorksheet(name)`: a sheet with no rows. */
    constructor(name: string)
      ensures this.name == name && rows == []
    {
      this.name := name;
      rows := [];
    }

    /** `worksheet.columns = [...]`: row 1 becomes the headers. */
    method SetColumns(headers: seq<string>)
      modifies this
      ensures rows == [HeaderRow(headers)] + (if old(rows) == [] then [] else old(rows)[1..])
    {
      rows := [HeaderRow(headers)] + (if rows == [] then [] else rows[1..]);
    }

    /** `worksheet.addRow(values)`: a new last row. */
    method AddRow(row: Row)
      modifies this
      ensures rows == old(rows) + [row]
    {
      rows := rows + [row];
    }

    /** `worksheet.getRow(rowNumber).getCell(n).value = v`. */
    method SetCell(rowNumber: nat, n: nat, v: Cell)
      requires 1 <= rowNumber <= |rows| && n >= 1
      modifies this
      ensures rows == old(rows)[rowNumber - 1 := SetCellIn(old(rows)[rowNumber - 1], n, v)]
    {
      rows := rows[rowNumber - 1 := SetCellIn(rows[rowNumber - 1], n, v)];
    }
  }

  class Workbook {
    var sheets: map<string, Worksheet>

    /** Every sheet is filed under its own name, so distinct names hold distinct sheets. */
    predicate Valid()
      reads this, sheets.Values
    {
      forall n :: n in sheets ==> sheets[n].name == n
    }

    /** `new ExcelJS.Workbook()`. */
    constructor()
      ensures sheets == map[] && Valid()
    {
      sheets := map[];
    }

    /** `workbook.getWorksheet(name)`. */
    function GetWorksheet(name: string): (r: Option<Worksheet>)
      reads this
      ensures r.Some? <==> name in sheets
      ensures r.Some? ==> r.value == sheets[name]
    {
      if name in sheets then Some(sheets[name]) else None
    }

    /** `workbook.addWorksheet(name)`, for a name that is not taken. */
    method AddWorksheet(name: string) returns (ws: Worksheet)
      requires Valid() && name !in sheets
      modifies this
      ensures fresh(ws) && ws.name == name && ws.rows == []
      ensures sheets == old(sheets)[name := ws] && Valid()
    {
      ws := new Worksheet(name);
      sheets := sheets[name := ws];
    }
  }
}
