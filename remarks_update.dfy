/**
 * output/updateExcelWithRemarks.js: for every graded report in the output
 * directory, the student and project are read off the file name, the
 * remarks off the report's `Total Score:` paragraph, and the instructor's
 * sheet gets the remarks in the student's existing row for that project or
 * a new row.  File names are those src/index.js gives the reports,
 * `<name with white space as '-'>-week<n>-<ISO time>.html`.
 */
module RemarksUpdate {
  import opened Wrappers
  import opened Sequences
  import opened JsString
  import opened FileStamps
  import opened Sheets

  /** The columns of a sheet the updater creates. */
  const RemarksColumns: seq<string> := ["Student Name", "Email Address", "Project", "Remarks", "Date"]

  const ScoreMarker: string := "Total Score:"

  const DefaultRemarks: string := "See HTML file for details"

  // ---------------------------------------------------------------------
  // The file name
  // ---------------------------------------------------------------------

  /** A hyphen-separated part that names the week: it starts with `week` in any case. */
  predicate IsWeekPart(part: string) {
    StartsWith(ToLowerAscii(part), "week")
  }

  /** `parts.findIndex(...)` from `from` on; `None` stands for -1. */
  function FindWeekPart(parts: seq<string>, from: nat): (r: Option<nat>)
    requires from <= |parts|
    ensures r.Some? ==> from <= r.value < |parts| && IsWeekPart(parts[r.value])
    decreases |parts| - from
  {
    if from == |parts| then None
    else if IsWeekPart(parts[from]) then Some(from)
    else FindWeekPart(parts, from + 1)
  }

  /** The index found is the first week part; when none is found there is none. */
  lemma {:induction false} FindWeekPartFacts(parts: seq<string>, from: nat)
    requires from <= |parts|
    ensures FindWeekPart(parts, from).Some? ==>
      forall j :: from <= j < FindWeekPart(parts, from).value ==> !IsWeekPart(parts[j])
    ensures FindWeekPart(parts, from).None? <==> forall j :: from <= j < |parts| ==> !IsWeekPart(parts[j])
    decreases |parts| - from
  {
    if from < |parts| && !IsWeekPart(parts[from]) {
      FindWeekPartFacts(parts, from + 1);
    }
  }

  /** The student and project a report's file name names. */
  datatype FileKey = FileKey(studentName: string, project: string)

  /** `week17` is the final project; any other week part is `Week ` and what follows `week`. */
  function WeekProject(part: string): string {
    var lower := ToLowerAscii(part);
    if lower == "week17" then "Final Project" else "Week " + Trim(ReplaceFirst(lower, "week", ""))
  }

  /**
   * The name is the parts before the first week part, joined with spaces;
   * a name whose first part is the week part, or with no week part, is skipped.
   */
  function ParseFileName(file: string): Option<FileKey> {
    var parts := Split(file, '-');
    match FindWeekPart(parts, 0)
    case None => None
    case Some(wi) => if wi == 0 then None else Some(FileKey(Join(parts[..wi], " "), WeekProject(parts[wi])))
  }

  /** With the first week part at `wi`, the key is what precedes it and the project it names. */
  lemma ParseFileNameAt(file: string, wi: nat)
    requires wi < |Split(file, '-')| && IsWeekPart(Split(file, '-')[wi])
    requires forall j :: 0 <= j < wi ==> !IsWeekPart(Split(file, '-')[j])
    ensures wi == 0 ==> ParseFileName(file).None?
    ensures wi > 0 ==>
      ParseFileName(file) == Some(FileKey(Join(Split(file, '-')[..wi], " "), WeekProject(Split(file, '-')[wi])))
  {
    var parts := Split(file, '-');
    FindWeekPartFacts(parts, 0);
    var f := FindWeekPart(parts, 0);
    assert f.Some?;
    assert f.value <= wi;
    assert f.value >= wi;
  }

  /** A name with no week part is skipped. */
  lemma ParseFileNameNone(file: string)
    requires forall j :: 0 <= j < |Split(file, '-')| ==> !IsWeekPart(Split(file, '-')[j])
    ensures ParseFileName(file).None?
  {
    FindWeekPartFacts(Split(file, '-'), 0);
  }

  /** Lower-casing leaves digits as they are. */
  lemma LowerOfDigits(prefix: string, week: string)
    requires ToLowerAscii(prefix) == "week" && IsDigits(week)
    ensures ToLowerAscii(prefix + week) == "week" + week
  {
    var lower := ToLowerAscii(prefix + week);
    forall k | 0 <= k < |prefix| + |week| ensures lower[k] == ("week" + week)[k] {
      if k < |prefix| {
        assert (prefix + week)[k] == prefix[k];
        assert ToLowerAscii(prefix)[k] == LowerAscii(prefix[k]);
      } else {
        assert (prefix + week)[k] == week[k - |prefix|];
        assert IsAsciiDigit(week[k - |prefix|]);
      }
    }
  }

  /** Removing the leading `week` and trimming leaves the digits. */
  lemma WeekDigits(week: string)
    requires IsDigits(week)
    ensures Trim(ReplaceFirst("week" + week, "week", "")) == week
  {
    StartsWithSelf("week", week);
    assert ("week" + week)[4..] == week;
    if week != [] {
      assert IsAsciiDigit(week[0]) && IsAsciiDigit(week[|week| - 1]);
    }
    TrimmedUnchanged(week);
  }

  /** A week part `week<digits>`, in any case, is `Final Project` for week 17 and `Week <digits>` otherwise. */
  lemma WeekProjectOfDigits(prefix: string, week: string)
    requires ToLowerAscii(prefix) == "week" && IsDigits(week)
    ensures WeekProject(prefix + week) == if week == "17" then "Final Project" else "Week " + week
  {
    LowerOfDigits(prefix, week);
    WeekDigits(week);
    assert "week" + week == "week17" <==> week == "17" by {
      if "week" + week == "week17" {
        assert week == ("week" + week)[4..];
      }
    }
  }

  // ---------------------------------------------------------------------
  // The date and the remarks
  // ---------------------------------------------------------------------

  /**
   * `Mar,<day>,2025` from the leftmost `2025-MM-DDT` in the name, the day
   * read as `parseInt` reads it and the month ignored; empty without one.
   */
  function DateString(file: string): string {
    match FirstStamp(file, 0, Some("2025"))
    case None => ""
    case Some(i) =>
      FirstStampFacts(file, 0, Some("2025"));
      "Mar," + NatToString(StampDay(file, i)) + ",2025"
  }

  /** The date is empty exactly when the name holds no `2025-MM-DDT`. */
  lemma DateStringEmpty(file: string)
    ensures DateString(file) == "" <==> forall j: nat :: !StampAt(file, j, Some("2025"))
  {
    FirstStampFacts(file, 0, Some("2025"));
    var f := FirstStamp(file, 0, Some("2025"));
    if f.Some? {
      assert DateString(file)[..4] == "Mar,";
      assert StampAt(file, f.value, Some("2025"));
    }
  }

  lemma YearDigits()
    ensures IsDigits("2025")
  {
    assert forall k :: 0 <= k < 4 ==> IsAsciiDigit("2025"[k]);
  }

  /** The first 2025 stamp gives the date. */
  lemma DateStringAt(s: string, p: nat, day: string)
    requires IsFirstStamp(s, p) && s[p..p + 4] == "2025" && s[p + 8..p + 10] == day
    ensures DateString(s) == "Mar," + NatToString(ParseDigits(day)) + ",2025"
  {
    assert StampAt(s, p, Some("2025"));
    FirstStampIs(s, p, Some("2025"));
  }

  /** In a report named for a 2025 time, the date carries that time's day. */
  lemma {:induction false} ReportDateString(s: string, a: string, w: string, year: string, month: string, day: string, rest: string)
    requires NoDigits(a) && 1 <= |w| <= 3 && year == "2025"
    requires |month| == 2 && |day| == 2 && IsDigits(month) && IsDigits(day)
    requires s == a + w + "-" + year + "-" + month + "-" + day + "T" + rest
    ensures DateString(s) == "Mar," + NatToString(ParseDigits(day)) + ",2025"
  {
    var p := |a| + |w| + 1;
    YearDigits();
    ReportNameStamp(s, a, w, year, month, day, rest);
    DateStringAt(s, p, day);
  }

  /** The last paragraph that mentions the total score. */
  function LastScoreParagraph(paragraphs: seq<string>): (r: Option<string>)
    ensures r.Some? ==> Contains(r.value, ScoreMarker)
  {
    if paragraphs == [] then None
    else if Contains(paragraphs[|paragraphs| - 1], ScoreMarker) then Some(paragraphs[|paragraphs| - 1])
    else LastScoreParagraph(paragraphs[..|paragraphs| - 1])
  }

  /** The paragraph found is the last one with the score. */
  lemma {:induction false} LastScoreParagraphAt(paragraphs: seq<string>, k: nat)
    requires k < |paragraphs| && Contains(paragraphs[k], ScoreMarker)
    requires forall j :: k < j < |paragraphs| ==> !Contains(paragraphs[j], ScoreMarker)
    ensures LastScoreParagraph(paragraphs) == Some(paragraphs[k])
    decreases |paragraphs|
  {
    var n := |paragraphs| - 1;
    if k < n {
      var init := paragraphs[..n];
      assert init[k] == paragraphs[k];
      assert forall j :: k < j < |init| ==> init[j] == paragraphs[j];
      LastScoreParagraphAt(init, k);
    }
  }

  /** Without a score paragraph nothing is found. */
  lemma {:induction false} NoScoreParagraph(paragraphs: seq<string>)
    requires forall j :: 0 <= j < |paragraphs| ==> !Contains(paragraphs[j], ScoreMarker)
    ensures LastScoreParagraph(paragraphs).None?
    decreases |paragraphs|
  {
    if paragraphs != [] {
      var init := paragraphs[..|paragraphs| - 1];
      assert forall j :: 0 <= j < |init| ==> init[j] == paragraphs[j];
      NoScoreParagraph(init);
    }
  }

  /** The remarks for a report: its last score paragraph, or the default text. */
  function RemarksOf(paragraphs: seq<string>): string {
    match LastScoreParagraph(paragraphs)
    case None => DefaultRemarks
    case Some(p) => p
  }

  /**
   * The `#content-to-copy p` loop: each paragraph with the score replaces
   * the remarks so far, and empty remarks become the default.
   */
  method ExtractRemarks(paragraphs: seq<string>) returns (remarks: string)
    ensures remarks == RemarksOf(paragraphs)
  {
    remarks := "";
    for i := 0 to |paragraphs|
      invariant remarks == match LastScoreParagraph(paragraphs[..i]) case None => "" case Some(p) => p
    {
      TakeOneMore(paragraphs, i);
      assert paragraphs[..i + 1][..i] == paragraphs[..i];
      if Contains(paragraphs[i], ScoreMarker) {
        remarks := paragraphs[i];
      }
    }
    TakeAll(paragraphs);
    if remarks == "" {
      remarks := DefaultRemarks;
    } else {
      assert LastScoreParagraph(paragraphs).Some?;
    }
  }

  // ---------------------------------------------------------------------
  // The upsert
  // ---------------------------------------------------------------------

  /** A row is the key's when column 1 holds the name and column 3 the project. */
  predicate Matches(row: Row, key: FileKey) {
    CellAt(row, 1) == Text(key.studentName) && CellAt(row, 3) == Text(key.project)
  }

  /** The index of the last row below the header that is the key's. */
  function LastMatch(rows: seq<Row>, key: FileKey): (r: Option<nat>)
    ensures r.Some? ==> 1 <= r.value < |rows| && Matches(rows[r.value], key)
    decreases |rows|
  {
    if |rows| <= 1 then None
    else if Matches(rows[|rows| - 1], key) then Some(|rows| - 1)
    else LastMatch(rows[..|rows| - 1], key)
  }

  /** No row after the one found is the key's; when none is found, no row below the header is. */
  lemma {:induction false} LastMatchFacts(rows: seq<Row>, key: FileKey)
    ensures LastMatch(rows, key).Some? ==>
      forall j :: LastMatch(rows, key).value < j < |rows| ==> !Matches(rows[j], key)
    ensures LastMatch(rows, key).None? ==> forall j :: 1 <= j < |rows| ==> !Matches(rows[j], key)
    decreases |rows|
  {
    if |rows| > 1 && !Matches(rows[|rows| - 1], key) {
      var init := rows[..|rows| - 1];
      assert forall j :: 0 <= j < |init| ==> init[j] == rows[j];
      LastMatchFacts(init, key);
    }
  }

  /** The last matching row is the one found. */
  lemma {:induction false} LastMatchAt(rows: seq<Row>, key: FileKey, m: nat)
    requires 1 <= m < |rows| && Matches(rows[m], key)
    requires forall j :: m < j < |rows| ==> !Matches(rows[j], key)
    ensures LastMatch(rows, key) == Some(m)
    decreases |rows|
  {
    var n := |rows| - 1;
    if m < n {
      var init := rows[..n];
      assert init[m] == rows[m];
      assert forall j :: m < j < |init| ==> init[j] == rows[j];
      LastMatchAt(init, key, m);
    }
  }

  /** The row added for a key not yet in the sheet; the email is left blank. */
  function NewEntry(key: FileKey, remarks: string, date: string): Row {
    [Text(key.studentName), Text(""), Text(key.project), Text(remarks), Text(date)]
  }

  /** The remarks go to column 4 of the key's last row, or a new row is added. */
  function Upsert(rows: seq<Row>, key: FileKey, remarks: string, date: string): seq<Row> {
    match LastMatch(rows, key)
    case Some(m) => rows[m := SetCellIn(rows[m], 4, Text(remarks))]
    case None => rows + [NewEntry(key, remarks, date)]
  }

  /** `after` is `before` with only column 4 of row `m` set to the remarks. */
  ghost predicate OnlyRemarksChanged(before: seq<Row>, after: seq<Row>, m: nat, remarks: string)
    requires m < |before|
  {
    |after| == |before|
    && (forall j :: 0 <= j < |before| && j != m ==> after[j] == before[j])
    && CellAt(after[m], 4) == Text(remarks)
    && forall c :: 1 <= c && c != 4 ==> CellAt(after[m], c) == CellAt(before[m], c)
  }

  /** When the key has rows, only column 4 of its last row changes. */
  lemma UpsertUpdatesLast(rows: seq<Row>, key: FileKey, remarks: string, date: string, m: nat)
    requires 1 <= m < |rows| && Matches(rows[m], key)
    requires forall j :: m < j < |rows| ==> !Matches(rows[j], key)
    ensures OnlyRemarksChanged(rows, Upsert(rows, key, remarks, date), m, remarks)
  {
    LastMatchAt(rows, key, m);
  }

  /** When no row below the header is the key's, exactly one row is added. */
  lemma UpsertAppends(rows: seq<Row>, key: FileKey, remarks: string, date: string)
    requires forall j :: 1 <= j < |rows| ==> !Matches(rows[j], key)
    ensures Upsert(rows, key, remarks, date) == rows + [NewEntry(key, remarks, date)]
  {
    LastMatchFacts(rows, key);
  }

  /** Below a header, the key's last row afterwards holds the remarks. */
  lemma UpsertFinds(rows: seq<Row>, key: FileKey, remarks: string, date: string)
    requires |rows| >= 1
    ensures LastMatch(Upsert(rows, key, remarks, date), key).Some?
    ensures CellAt(Upsert(rows, key, remarks, date)[LastMatch(Upsert(rows, key, remarks, date), key).value], 4)
            == Text(remarks)
  {
    var after := Upsert(rows, key, remarks, date);
    LastMatchFacts(rows, key);
    match LastMatch(rows, key)
    case Some(m) =>
      assert OnlyRemarksChanged(rows, after, m, remarks);
      assert Matches(after[m], key);
      LastMatchAt(after, key, m);
    case None =>
      var n := |rows|;
      assert after[n] == NewEntry(key, remarks, date);
      LastMatchAt(after, key, n);
  }

  /** A row whose column 4 already holds the value is unchanged by setting it. */
  lemma SetCellAgain(row: Row, v: Cell)
    requires CellAt(row, 4) == v && |row| >= 4
    ensures SetCellIn(row, 4, v) == row
  {
  }

  /** Running the upsert twice with the same remarks changes nothing the first run did not. */
  lemma UpsertIdempotent(rows: seq<Row>, key: FileKey, remarks: string, date: string)
    requires |rows| >= 1
    ensures Upsert(Upsert(rows, key, remarks, date), key, remarks, date) == Upsert(rows, key, remarks, date)
  {
    var after := Upsert(rows, key, remarks, date);
    LastMatchFacts(rows, key);
    match LastMatch(rows, key)
    case Some(m) =>
      assert OnlyRemarksChanged(rows, after, m, remarks);
      assert Matches(after[m], key);
      LastMatchAt(after, key, m);
      SetCellAgain(after[m], Text(remarks));
      assert after[m := SetCellIn(after[m], 4, Text(remarks))] == after;
    case None =>
      var n := |rows|;
      assert after[n] == NewEntry(key, remarks, date);
      LastMatchAt(after, key, n);
      SetCellAgain(after[n], Text(remarks));
      assert after[n := SetCellIn(after[n], 4, Text(remarks))] == after;
  }

  // ---------------------------------------------------------------------
  // Processing the reports
  // ---------------------------------------------------------------------

  /** A report in the output directory: its file name and the texts of its `#content-to-copy` paragraphs. */
  datatype Report = Report(name: string, paragraphs: seq<string>)

  /** The sheet's rows after one report: unchanged when its name is skipped. */
  function ApplyReport(rows: seq<Row>, report: Report): seq<Row> {
    match ParseFileName(report.name)
    case None => rows
    case Some(key) => Upsert(rows, key, RemarksOf(report.paragraphs), DateString(report.name))
  }

  /** The sheet's rows after the reports, in order. */
  function ApplyReports(rows: seq<Row>, reports: seq<Report>): seq<Row> {
    if reports == [] then rows
    else ApplyReport(ApplyReports(rows, reports[..|reports| - 1]), reports[|reports| - 1])
  }

  /** The `eachRow` scan: the last row below the header that is the key's. */
  method FindEntry(rows: seq<Row>, key: FileKey) returns (existing: Option<nat>)
    ensures existing == LastMatch(rows, key)
  {
    existing := None;
    for i := 0 to |rows|
      invariant existing == LastMatch(rows[..i], key)
    {
      TakeOneMore(rows, i);
      assert rows[..i + 1][..i] == rows[..i];
      if i > 0 && Matches(rows[i], key) {
        existing := Some(i);
      }
    }
    TakeAll(rows);
  }

  /** One report: its remarks go to the key's row, or a new row is added. */
  method ProcessReport(ws: Worksheet, report: Report)
    modifies ws
    ensures ws.rows == ApplyReport(old(ws.rows), report)
  {
    var key := ParseFileName(report.name);
    if key.None? {
      return;
    }
    var dateStr := DateString(report.name);
    var remarks := ExtractRemarks(report.paragraphs);
    UpsertEntry(ws, key.value, remarks, dateStr);
  }

  /** The remarks go to column 4 of the key's last row (sheet row `index + 1`), or a new row is added. */
  method UpsertEntry(ws: Worksheet, key: FileKey, remarks: string, date: string)
    modifies ws
    ensures ws.rows == Upsert(old(ws.rows), key, remarks, date)
  {
    var existing := FindEntry(ws.rows, key);
    if existing.Some? {
      ws.SetCell(existing.value + 1, 4, Text(remarks));
    } else {
      ws.AddRow(NewEntry(key, remarks, date));
    }
  }

  /** The reports one after the other. */
  method ProcessReports(ws: Worksheet, reports: seq<Report>)
    modifies ws
    ensures ws.rows == ApplyReports(old(ws.rows), reports)
  {
    for i := 0 to |reports|
      invariant ws.rows == ApplyReports(old(ws.rows), reports[..i])
    {
      TakeOneMore(reports, i);
      assert reports[..i + 1][..i] == reports[..i];
      ProcessReport(ws, reports[i]);
    }
    TakeAll(reports);
  }

  /**
   * `updateExcelWithHtmlRemarks` on the loaded workbook (empty when the file
   * could not be read) and the `.html` reports of the directory: the
   * instructor's sheet is created with the five columns when missing, and
   * no other sheet changes.
   */
  method UpdateExcelWithHtmlRemarks(wb: Workbook, reports: seq<Report>) returns (ws: Worksheet)
    requires wb.Valid()
    modifies wb, wb.sheets.Values
    ensures wb.Valid() && InstructorTab in wb.sheets && ws == wb.sheets[InstructorTab]
    ensures InstructorTab in old(wb.sheets) ==>
      ws == old(wb.sheets[InstructorTab]) && ws.rows == ApplyReports(old(ws.rows), reports) && wb.sheets == old(wb.sheets)
    ensures InstructorTab !in old(wb.sheets) ==>
      fresh(ws) && ws.rows == ApplyReports([HeaderRow(RemarksColumns)], reports)
      && wb.sheets == old(wb.sheets)[InstructorTab := ws]
    ensures forall n :: n in old(wb.sheets) && n != InstructorTab ==> wb.sheets[n].rows == old(wb.sheets[n].rows)
  {
    var found := wb.GetWorksheet(InstructorTab);
    if found.Some? {
      ws := found.value;
    } else {
      ws := wb.AddWorksheet(InstructorTab);
      ws.SetColumns(RemarksColumns);
      assert ws.rows == [HeaderRow(RemarksColumns)];
    }
    assert ws.name == InstructorTab;
    assert forall n :: n in wb.sheets && n != InstructorTab ==> wb.sheets[n] != ws;
    ProcessReports(ws, reports);
  }

  // ---------------------------------------------------------------------
  // The names src/index.js gives the reports
  // ---------------------------------------------------------------------

  /** `s.replace(/\s+/g, "-")`, reading on from inside a run of white space when `inRun` holds. */
  function DashRuns(s: string, inRun: bool): string {
    if s == [] then []
    else if IsWhitespace(s[0]) then (if inRun then [] else "-") + DashRuns(s[1..], true)
    else [s[0]] + DashRuns(s[1..], false)
  }

  /** The report's file name for a student, a week and the time the text of which has no `:` or `.`. */
  function ReportFileName(studentName: string, weekNumber: string, timestamp: string): string {
    DashRuns(studentName, false) + "-" + (("week" + weekNumber) + "-" + (timestamp + ".html"))
  }

  predicate NoWhitespace(s: string) {
    forall k :: 0 <= k < |s| ==> !IsWhitespace(s[k])
  }

  /** Text without white space is copied as it is. */
  lemma {:induction false} DashRunsPlain(a: string, b: string, inRun: bool)
    requires a != [] && NoWhitespace(a)
    ensures DashRuns(a + b, inRun) == a + DashRuns(b, false)
    decreases |a|
  {
    assert (a + b)[0] == a[0] && (a + b)[1..] == a[1..] + b;
    if |a| > 1 {
      DashRunsPlain(a[1..], b, false);
      assert [a[0]] + a[1..] == a;
    } else {
      assert a[1..] + b == b;
    }
  }

  /** Words joined by single spaces come out joined by hyphens. */
  lemma {:induction false} DashRunsJoin(words: seq<string>)
    requires |words| >= 1 && forall k :: 0 <= k < |words| ==> words[k] != [] && NoWhitespace(words[k])
    ensures DashRuns(Join(words, " "), false) == Join(words, "-")
    decreases |words|
  {
    if |words| == 1 {
      DashRunsPlain(words[0], [], false);
      assert words[0] + [] == words[0];
    } else {
      var tail := Join(words[1..], " ");
      assert Join(words, " ") == words[0] + (" " + tail);
      DashRunsPlain(words[0], " " + tail, false);
      DashRunsJoin(words[1..]);
      assert (" " + tail)[0] == ' ' && (" " + tail)[1..] == tail;
      assert words[1] != [] && NoWhitespace(words[1]);
      assert tail == words[1] + (if |words| == 2 then [] else " " + Join(words[2..], " "));
      DashRunsPlain(words[1], if |words| == 2 then [] else " " + Join(words[2..], " "), true);
      DashRunsPlain(words[1], if |words| == 2 then [] else " " + Join(words[2..], " "), false);
      assert DashRuns(tail, true) == DashRuns(tail, false);
    }
  }

  /** Joining words with a separator, then joining with another separator the same words. */
  lemma JoinSplitWords(words: seq<string>, rest: string)
    requires |words| >= 1 && forall k :: 0 <= k < |words| ==> '-' !in words[k]
    ensures Split(Join(words, "-") + "-" + rest, '-') == words + Split(rest, '-')
  {
    SplitAppend(Join(words, "-"), rest, '-');
    SplitJoin(words, '-');
  }

  /** The parts of `<words>-<week part>-<rest>`. */
  lemma SplitReportName(words: seq<string>, weekPart: string, rest: string)
    requires |words| >= 1 && forall k :: 0 <= k < |words| ==> '-' !in words[k]
    requires '-' !in weekPart
    ensures Split(Join(words, "-") + "-" + (weekPart + "-" + rest), '-') == words + ([weekPart] + Split(rest, '-'))
  {
    JoinSplitWords(words, weekPart + "-" + rest);
    SplitAppend(weekPart, rest, '-');
    SplitNoSeparator(weekPart, '-');
  }

  /** The week part of a report's name: `week` and the digits. */
  lemma WeekPartOfDigits(weekNumber: string)
    requires IsDigits(weekNumber)
    ensures '-' !in "week" + weekNumber && IsWeekPart("week" + weekNumber)
    ensures WeekProject("week" + weekNumber) == if weekNumber == "17" then "Final Project" else "Week " + weekNumber
  {
    var weekPart := "week" + weekNumber;
    forall k | 0 <= k < |weekPart| ensures weekPart[k] != '-' {
      if k >= 4 {
        assert weekPart[k] == weekNumber[k - 4] && IsAsciiDigit(weekNumber[k - 4]);
      }
    }
    assert ToLowerAscii("week") == "week";
    LowerOfDigits("week", weekNumber);
    WeekProjectOfDigits("week", weekNumber);
    assert ToLowerAscii(weekPart)[..4] == "week";
  }

  /** A name whose parts are words, a week part and more reads as the words and that week. */
  lemma ParseFileNameOfParts(file: string, words: seq<string>, weekPart: string, tail: seq<string>)
    requires Split(file, '-') == words + ([weekPart] + tail)
    requires |words| >= 1 && IsWeekPart(weekPart) && forall k :: 0 <= k < |words| ==> !IsWeekPart(words[k])
    ensures ParseFileName(file) == Some(FileKey(Join(words, " "), WeekProject(weekPart)))
  {
    var parts := Split(file, '-');
    var wi := |words|;
    assert parts[wi] == weekPart;
    forall j | 0 <= j < wi ensures !IsWeekPart(parts[j]) {
      assert parts[j] == words[j];
    }
    ParseFileNameAt(file, wi);
    assert parts[..wi] == words;
  }

  /**
   * Reading a report's name back: a student name of words separated by
   * single spaces, none of them containing `-` or starting with `week`,
   * and a week number of digits give back the name and the week's project.
   */
  lemma FileNameRoundTrip(words: seq<string>, weekNumber: string, timestamp: string)
    requires |words| >= 1
    requires forall k :: 0 <= k < |words| ==>
      words[k] != [] && NoWhitespace(words[k]) && '-' !in words[k] && !IsWeekPart(words[k])
    requires IsDigits(weekNumber)
    ensures ParseFileName(ReportFileName(Join(words, " "), weekNumber, timestamp)) ==
      Some(FileKey(Join(words, " "), if weekNumber == "17" then "Final Project" else "Week " + weekNumber))
  {
    var file := ReportFileName(Join(words, " "), weekNumber, timestamp);
    DashRunsJoin(words);
    var weekPart := "week" + weekNumber;
    var rest := timestamp + ".html";
    WeekPartOfDigits(weekNumber);
    SplitReportName(words, weekPart, rest);
    ParseFileNameOfParts(file, words, weekPart, Split(rest, '-'));
  }
}
