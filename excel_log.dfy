/**
 * src/excelLogger.js: each graded submission becomes one new row of the
 * instructor's sheet, numbered after the rows already there, with long
 * remarks cut short.
 */
module ExcelLog {
  import opened Wrappers
  import opened Sheets

  /** The columns of a sheet the logger creates. */
  const LogColumns: seq<string> := ["#", "Student Name", "Email Address", "Project Grading", "Remarks", "Date"]

  const MaxRemarksLength: nat := 1000

  /** Remarks longer than the limit keep its first characters and end in `...`. */
  function TruncateRemarks(remarks: string): (r: string)
    ensures |r| <= MaxRemarksLength + 3
    ensures |remarks| <= MaxRemarksLength ==> r == remarks
    ensures |remarks| > MaxRemarksLength ==> |r| == MaxRemarksLength + 3 && r[MaxRemarksLength..] == "..."
    ensures forall k :: 0 <= k < |remarks| && k < MaxRemarksLength ==> r[k] == remarks[k]
  {
    if |remarks| > MaxRemarksLength then remarks[..MaxRemarksLength] + "..." else remarks
  }

  /** Cutting remarks that were already cut changes nothing. */
  lemma TruncateIdempotent(remarks: string)
    ensures TruncateRemarks(TruncateRemarks(remarks)) == TruncateRemarks(remarks)
  {
    var once := TruncateRemarks(remarks);
    if |remarks| > MaxRemarksLength {
      assert once[..MaxRemarksLength] == remarks[..MaxRemarksLength];
    }
  }

  /** What one call logs. */
  datatype Grading = Grading(studentName: string, email: string, weekNumber: string, remarks: string, date: string)

  /** `actualRowCount || 1`, then 1 when only the header is there. */
  function NewRowNumber(rows: seq<Row>): (n: nat)
    ensures n >= 1
  {
    var rowCount := if ActualRowCount(rows) == 0 then 1 else ActualRowCount(rows);
    if rowCount > 1 then rowCount else 1
  }

  /** The row logged, numbered `n`; an empty date is replaced by today's. */
  function LogRow(n: nat, g: Grading, today: string): Row {
    [Number(n), Text(g.studentName), Text(g.email), Text(g.weekNumber), Text(TruncateRemarks(g.remarks)),
     Text(if g.date == "" then today else g.date)]
  }

  /** A header row followed by data rows numbered 1, 2, 3, ... in column `#`. */
  predicate Numbered(rows: seq<Row>) {
    |rows| >= 1 && HasValues(rows[0]) && forall k :: 1 <= k < |rows| ==> |rows[k]| >= 1 && rows[k][0] == Number(k)
  }

  /** A sheet with only the header, or nothing, starts at 1. */
  lemma FirstRowNumber(rows: seq<Row>)
    requires |rows| <= 1
    ensures NewRowNumber(rows) == 1
  {
  }

  /** On a numbered sheet the next number is the number of rows, header included. */
  lemma NumberedNext(rows: seq<Row>)
    requires Numbered(rows)
    ensures NewRowNumber(rows) == |rows|
  {
    forall k | 0 <= k < |rows| ensures HasValues(rows[k]) {
      if k > 0 {
        assert rows[k][0] != Empty;
      }
    }
    AllRowsCounted(rows);
  }

  /** Logging keeps the data rows numbered consecutively. */
  lemma LogKeepsNumbering(rows: seq<Row>, g: Grading, today: string)
    requires Numbered(rows)
    ensures Numbered(rows + [LogRow(NewRowNumber(rows), g, today)])
  {
    NumberedNext(rows);
    var after := rows + [LogRow(NewRowNumber(rows), g, today)];
    assert forall k :: 0 <= k < |rows| ==> after[k] == rows[k];
  }

  /** A sheet the logger creates is numbered. */
  lemma NewSheetNumbered()
    ensures Numbered([HeaderRow(LogColumns)])
  {
    assert HeaderRow(LogColumns)[0] == Text("#");
  }

  /**
   * `logToExcel` on the loaded workbook (empty when the file could not be
   * read): the instructor's sheet is created with the six columns when
   * missing, exactly one row is added to it, and nothing else changes.
   */
  method LogToExcel(wb: Workbook, loaded: bool, g: Grading, today: string) returns (ws: Worksheet)
    requires wb.Valid() && (!loaded ==> wb.sheets == map[])
    modifies wb, wb.sheets.Values
    ensures wb.Valid() && InstructorTab in wb.sheets && ws == wb.sheets[InstructorTab]
    ensures InstructorTab in old(wb.sheets) ==>
      ws == old(wb.sheets[InstructorTab]) && wb.sheets == old(wb.sheets)
      && ws.rows == old(ws.rows) + [LogRow(NewRowNumber(old(ws.rows)), g, today)]
    ensures InstructorTab !in old(wb.sheets) ==>
      fresh(ws) && wb.sheets == old(wb.sheets)[InstructorTab := ws]
      && ws.rows == [HeaderRow(LogColumns), LogRow(1, g, today)]
    ensures forall n :: n in old(wb.sheets) && n != InstructorTab ==> wb.sheets[n].rows == old(wb.sheets[n].rows)
  {
    if !loaded {
      var created := wb.AddWorksheet(InstructorTab);
      created.SetColumns(LogColumns);
    }
    var found := wb.GetWorksheet(InstructorTab);
    if found.Some? {
      ws := found.value;
    } else {
      ws := wb.AddWorksheet(InstructorTab);
      ws.SetColumns(LogColumns);
    }
    assert ws.name == InstructorTab;
    assert InstructorTab !in old(wb.sheets) ==> ws.rows == [HeaderRow(LogColumns)];
    FirstRowNumber([HeaderRow(LogColumns)]);
    var truncatedRemarks := TruncateRemarks(g.remarks);
    var rowCount := ActualRowCount(ws.rows);
    if rowCount == 0 {
      rowCount := 1;
    }
    var newRowNumber := if rowCount > 1 then rowCount else 1;
    var date := if g.date == "" then today else g.date;
    ws.AddRow([Number(newRowNumber), Text(g.studentName), Text(g.email), Text(g.weekNumber),
               Text(truncatedRemarks), Text(date)]);
  }
}
