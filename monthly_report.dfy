/**
 * The monthly grading report (`GradingReportGenerator`,
 * generate-monthly-report.js): the graded HTML reports of one month are
 * read back through their `<meta>` tags, each becomes a record, and the
 * records become comma-separated text.  The directory listing, the host's
 * `Date` and the due-date rule are inputs: each file comes with its text and
 * its modification date, and the date parser and `calculateDueDate` are
 * functions passed in.
 */
module MonthlyReport {
  import opened Wrappers
  import opened Sequences
  import opened JsString
  import opened FileStamps
  import opened MentorCsv

  // ---------------------------------------------------------------------
  // generateCSV
  // ---------------------------------------------------------------------

  /** One line of the report. */
  datatype Record = Record(project: string, bootcamp: string, studentName: string, email: string,
                           cohort: string, dueDate: string, status: string, submissionDate: string,
                           grade: string)

  /** The record's fields in column order. */
  function Fields(r: Record): (fields: seq<string>)
    ensures |fields| == 9
  {
    [r.project, r.bootcamp, r.studentName, r.email, r.cohort, r.dueDate, r.status, r.submissionDate, r.grade]
  }

  const CsvHeaders: seq<string> :=
    ["Project", "Bootcamp", "Student", "Email", "Cohort", "Due Date", "Status", "Submission Date", "Grade"]

  const HeaderText: string := Join(CsvHeaders, ",")

  /**
   * A field with a comma is wrapped in quotes, and nothing else is done to
   * it: a quote inside is not doubled.  Any other field is left as it is.
   */
  function EscapeField(field: string): (r: string)
    ensures r == field || r == "\"" + field + "\""
    ensures r != field <==> Contains(field, ",")
  {
    if Contains(field, ",") then "\"" + field + "\"" else field
  }

  /** `row.map(escape)`. */
  function EscapeAll(fields: seq<string>): (r: seq<string>)
    ensures |r| == |fields| && forall k :: 0 <= k < |fields| ==> r[k] == EscapeField(fields[k])
  {
    seq(|fields|, k requires 0 <= k < |fields| => EscapeField(fields[k]))
  }

  /** A data line without its line end. */
  function RowText(r: Record): string {
    Join(EscapeAll(Fields(r)), ",")
  }

  function RowLine(r: Record): string {
    Line(RowText(r))
  }

  /** The text `generateCSV` returns: the header line, then one line per record. */
  function CsvText(data: seq<Record>): string {
    HeaderText + "\n" + Concat(RowLine, data)
  }

  /** `generateCSV`. */
  method GenerateCsv(data: seq<Record>) returns (csv: string)
    ensures csv == CsvText(data)
  {
    csv := HeaderText + "\n";
    for i := 0 to |data|
      invariant csv == HeaderText + "\n" + Concat(RowLine, data[..i])
    {
      var line := DataLine(data[i]);
      TakeOneMore(data, i);
      ConcatSnoc(RowLine, data[..i], data[i]);
      Assoc(HeaderText + "\n", Concat(RowLine, data[..i]), line);
      csv := csv + line;
    }
    TakeAll(data);
  }

  /** One record's line: its fields escaped and joined by commas. */
  method DataLine(r: Record) returns (line: string)
    ensures line == RowLine(r)
  {
    var escapedRow := EscapeAll(Fields(r));
    line := Join(escapedRow, ",") + "\n";
  }

  /** The data lines, without their line ends. */
  function RowTexts(data: seq<Record>): (r: seq<string>)
    ensures |r| == |data| && forall k :: 0 <= k < |data| ==> r[k] == RowText(data[k])
  {
    seq(|data|, k requires 0 <= k < |data| => RowText(data[k]))
  }

  lemma {:induction false} RowLinesAreLines(data: seq<Record>)
    ensures Concat(RowLine, data) == Concat(Line, RowTexts(data))
    decreases |data|
  {
    if data != [] {
      var init := data[..|data| - 1];
      RowLinesAreLines(init);
      assert RowTexts(data)[..|data| - 1] == RowTexts(init);
    }
  }

  /** Escaping adds only quotes. */
  lemma EscapeKeepsOut(field: string, c: char)
    requires c != '"' && c !in field
    ensures c !in EscapeField(field)
  {
  }

  lemma HeadersHaveNoLineEnd()
    ensures '\n' !in HeaderText
  {
    assert forall k :: 0 <= k < |CsvHeaders| ==> '\n' !in CsvHeaders[k];
    JoinKeepsOut(CsvHeaders, ",", '\n');
  }

  /** A row whose fields hold no line end is one line of the text. */
  lemma RowHasNoLineEnd(r: Record)
    requires forall k :: 0 <= k < 9 ==> '\n' !in Fields(r)[k]
    ensures '\n' !in RowText(r)
  {
    var escaped := EscapeAll(Fields(r));
    forall k | 0 <= k < |escaped| ensures '\n' !in escaped[k] {
      EscapeKeepsOut(Fields(r)[k], '\n');
    }
    JoinKeepsOut(escaped, ",", '\n');
  }

  /**
   * The report's lines are the header, then one line per record in order,
   * then the empty text after the last line end.
   */
  lemma CsvLines(data: seq<Record>)
    requires forall i, k :: 0 <= i < |data| && 0 <= k < 9 ==> '\n' !in Fields(data[i])[k]
    ensures Split(CsvText(data), '\n') == [HeaderText] + RowTexts(data) + [""]
    ensures |Split(CsvText(data), '\n')| == |data| + 2
  {
    HeadersHaveNoLineEnd();
    var ts := RowTexts(data);
    forall i | 0 <= i < |ts| ensures '\n' !in ts[i] {
      RowHasNoLineEnd(data[i]);
    }
    RowLinesAreLines(data);
    SplitLines(HeaderText, ts, "");
    assert CsvText(data) == HeaderText + "\n" + Concat(Line, ts) + "";
  }

  /** An escaped field read from the start of a field ends the read with the field as the current text. */
  lemma ScanEscaped(fields: seq<string>, f: string)
    requires '"' !in f
    ensures Scan(ScanState(fields, "", false), EscapeField(f)) == ScanState(fields, f, false)
  {
    var st := ScanState(fields, "", false);
    if Contains(f, ",") {
      ScanQuoted(st, f);
    } else {
      assert ',' !in f by {
        if ',' in f {
          var i :| 0 <= i < |f| && f[i] == ',';
          assert f[i..i + 1] == ",";
          assert OccursAt(f, ",", i);
        }
      }
      ScanPlain(st, f);
    }
    assert "" + f == f;
  }

  /** Reading the comma-joined escaped fields ends every field but the last at its comma. */
  lemma {:induction false} ScanEscapedJoined(fields: seq<string>, parts: seq<string>)
    requires |parts| >= 1
    requires forall k :: 0 <= k < |parts| ==> '"' !in parts[k]
    ensures Scan(ScanState(fields, "", false), Join(EscapeAll(parts), ",")) ==
            ScanState(fields + TrimAll(parts[..|parts| - 1]), parts[|parts| - 1], false)
    decreases |parts|
  {
    var st := ScanState(fields, "", false);
    var p0 := parts[0];
    var e0 := EscapeField(p0);
    ScanEscaped(fields, p0);
    if |parts| == 1 {
      assert TrimAll(parts[..0]) == [];
      assert fields + [] == fields;
    } else {
      var rest := parts[1..];
      var jr := Join(EscapeAll(rest), ",");
      assert EscapeAll(parts)[0] == e0;
      assert EscapeAll(parts)[1..] == EscapeAll(rest);
      assert Join(EscapeAll(parts), ",") == e0 + "," + jr;
      ScanAppend(st, e0 + ",", jr);
      ScanAppend(st, e0, ",");
      var st1 := ScanState(fields + [Trim(p0)], "", false);
      assert Scan(st, e0 + ",") == st1 by {
        assert Scan(Scan(st, e0), ",") == Step(Scan(st, e0), ',');
      }
      ScanEscapedJoined(fields + [Trim(p0)], rest);
      TrimAllCons(parts);
      Assoc(fields, [Trim(p0)], TrimAll(rest[..|rest| - 1]));
      assert rest[|rest| - 1] == parts[|parts| - 1];
      assert parts[1..][..|parts| - 2] == rest[..|rest| - 1];
    }
  }

  /**
   * Reading a data line back with `parseCSVLine` (output/mentorToCSV.js)
   * gives the nine fields, trimmed, when no field holds a quote; fields
   * without surrounding white space come back exactly.
   */
  lemma RowReadsBack(r: Record)
    requires forall k :: 0 <= k < 9 ==> '"' !in Fields(r)[k]
    ensures CsvFields(RowText(r)) == TrimAll(Fields(r))
    ensures (forall k :: 0 <= k < 9 ==> IsTrimmed(Fields(r)[k])) ==> CsvFields(RowText(r)) == Fields(r)
  {
    var parts := Fields(r);
    ScanEscapedJoined([], parts);
    TrimAllSnoc(parts);
    if forall k :: 0 <= k < 9 ==> IsTrimmed(parts[k]) {
      forall k | 0 <= k < 9 ensures TrimAll(parts)[k] == parts[k] {
        TrimmedUnchanged(parts[k]);
      }
    }
  }

  // ---------------------------------------------------------------------
  // extractMetaContent
  // ---------------------------------------------------------------------

  /** The number of white-space characters starting at `i`. */
  function WsRun(s: string, i: nat): (n: nat)
    requires i <= |s|
    ensures i + n <= |s|
    decreases |s| - i
  {
    if i < |s| && IsWhitespace(s[i]) then 1 + WsRun(s, i + 1) else 0
  }

  /** The number of characters other than `"` starting at `i`. */
  function QuoteFreeRun(s: string, i: nat): (n: nat)
    requires i <= |s|
    ensures i + n <= |s|
    decreases |s| - i
  {
    if i < |s| && s[i] != '"' then 1 + QuoteFreeRun(s, i + 1) else 0
  }

  lemma {:induction false} QuoteFreeRunFacts(s: string, i: nat)
    requires i <= |s|
    ensures '"' !in s[i..i + QuoteFreeRun(s, i)]
    ensures i + QuoteFreeRun(s, i) < |s| ==> s[i + QuoteFreeRun(s, i)] == '"'
    decreases |s| - i
  {
    if i < |s| && s[i] != '"' {
      QuoteFreeRunFacts(s, i + 1);
      var n := QuoteFreeRun(s, i + 1);
      assert s[i..i + 1 + n] == [s[i]] + s[i + 1..i + 1 + n];
    }
  }

  /** A quote-free text followed by a quote is the run at its start. */
  lemma {:induction false} QuoteFreeRunOf(s: string, i: nat, v: string)
    requires i + |v| < |s| && s[i..i + |v|] == v && '"' !in v && s[i + |v|] == '"'
    ensures QuoteFreeRun(s, i) == |v|
    decreases |v|
  {
    if v != [] {
      assert s[i] == v[0];
      assert s[i + 1..i + 1 + |v[1..]|] == v[1..];
      QuoteFreeRunOf(s, i + 1, v[1..]);
    }
  }

  /** `t` at `i`, ignoring ASCII case, as a `/i` regular expression compares literal text. */
  predicate TextAtIgnoreCase(s: string, i: nat, t: string) {
    i + |t| <= |s| && EqualsIgnoreCase(s[i..i + |t|], t)
  }

  /**
   * The match of `<meta\s+name="NAME"\s+content="([^"]*)"` starting at `i`,
   * as its capture group.  Each `\s+` takes the whole run of white space,
   * since the text that follows it does not start with white space, and
   * `[^"]*` takes the whole run of non-quotes, which a quote must end.
   * The name is matched as literal text.
   */
  function MetaAt(html: string, name: string, i: nat): (r: Option<string>)
  {
    if !(i <= |html| && TextAtIgnoreCase(html, i, "<meta")) then None
    else
      var a := i + 5;
      var w1 := WsRun(html, a);
      var key := "name=\"" + name + "\"";
      var b := a + w1;
      if w1 == 0 || !TextAtIgnoreCase(html, b, key) then None
      else
        var c := b + |key|;
        var w2 := WsRun(html, c);
        var d := c + w2;
        if w2 == 0 || !TextAtIgnoreCase(html, d, "content=\"") then None
        else
          var e := d + 9;
          var n := QuoteFreeRun(html, e);
          if e + n < |html| then Some(html[e..e + n]) else None
  }

  /** A captured value never holds a quote. */
  lemma MetaValueQuoteFree(html: string, name: string, i: nat)
    requires MetaAt(html, name, i).Some?
    ensures '"' !in MetaAt(html, name, i).value
  {
    var key := "name=\"" + name + "\"";
    var b := i + 5 + WsRun(html, i + 5);
    var d := b + |key| + WsRun(html, b + |key|);
    QuoteFreeRunFacts(html, d + 9);
  }

  /** The leftmost index at or after `from` where a match starts. */
  function FirstMeta(html: string, name: string, from: nat): (r: Option<nat>)
    requires from <= |html|
    ensures r.Some? ==> from <= r.value <= |html|
    decreases |html| - from
  {
    if MetaAt(html, name, from).Some? then Some(from)
    else if from == |html| then None
    else FirstMeta(html, name, from + 1)
  }

  lemma {:induction false} FirstMetaFacts(html: string, name: string, from: nat)
    requires from <= |html|
    ensures var r := FirstMeta(html, name, from);
      (r.Some? ==> MetaAt(html, name, r.value).Some? && forall j :: from <= j < r.value ==> MetaAt(html, name, j).None?) &&
      (r.None? ==> forall j :: from <= j ==> MetaAt(html, name, j).None?)
    decreases |html| - from
  {
    if MetaAt(html, name, from).None? && from < |html| {
      FirstMetaFacts(html, name, from + 1);
      var r := FirstMeta(html, name, from + 1);
      assert FirstMeta(html, name, from) == r;
      if r.Some? {
        forall j | from <= j < r.value ensures MetaAt(html, name, j).None? {
          if j > from {
            assert from + 1 <= j < r.value;
          }
        }
      } else {
        forall j | from <= j ensures MetaAt(html, name, j).None? {
          if j > from {
            assert from + 1 <= j;
          }
        }
      }
    }
  }

  /** `extractMetaContent`: the capture group of the leftmost match, or null when nothing matches. */
  function ExtractMetaContent(html: string, name: string): (r: Option<string>)
    ensures r.Some? ==> '"' !in r.value
  {
    match FirstMeta(html, name, 0)
    case None => None
    case Some(i) =>
      FirstMetaFacts(html, name, 0);
      MetaValueQuoteFree(html, name, i);
      MetaAt(html, name, i)
  }

  /** The value is that of the leftmost matching tag, and there is none exactly when no tag matches. */
  lemma ExtractMetaLeftmost(html: string, name: string)
    ensures var r := ExtractMetaContent(html, name);
      (r.Some? ==> exists i: nat :: MetaAt(html, name, i) == r && forall j: nat :: j < i ==> MetaAt(html, name, j).None?) &&
      (r.None? <==> forall j: nat :: MetaAt(html, name, j).None?)
  {
    FirstMetaFacts(html, name, 0);
    var f := FirstMeta(html, name, 0);
    if f.Some? {
      var i := f.value;
      assert MetaAt(html, name, i) == ExtractMetaContent(html, name);
    }
  }

  /** The match at `i` read piece by piece: each white-space run is one character long. */
  lemma MetaAtPieces(html: string, name: string, i: nat, value: string)
    requires var key := "name=\"" + name + "\"";
      TextAtIgnoreCase(html, i, "<meta") && i + 6 <= |html| && IsWhitespace(html[i + 5])
      && TextAtIgnoreCase(html, i + 6, key) && !IsWhitespace(html[i + 6])
      && i + 7 + |key| <= |html| && IsWhitespace(html[i + 6 + |key|])
      && TextAtIgnoreCase(html, i + 7 + |key|, "content=\"") && !IsWhitespace(html[i + 7 + |key|])
      && i + 16 + |key| + |value| < |html| && html[i + 16 + |key|..i + 16 + |key| + |value|] == value
      && '"' !in value && html[i + 16 + |key| + |value|] == '"'
    ensures MetaAt(html, name, i) == Some(value)
  {
    var key := "name=\"" + name + "\"";
    assert WsRun(html, i + 5) == 1;
    assert WsRun(html, i + 6 + |key|) == 1;
    QuoteFreeRunOf(html, i + 16 + |key|, value);
  }

  lemma SameIgnoringCase(s: string)
    ensures EqualsIgnoreCase(s, s)
  {
  }

  /** A tag written as `<meta name="NAME" content="VALUE"` at the start of the text is read back. */
  lemma MetaTagReadsBack(name: string, value: string, rest: string)
    requires '"' !in value
    ensures ExtractMetaContent("<meta " + ("name=\"" + name + "\"") + " content=\"" + value + "\"" + rest, name) == Some(value)
  {
    var key := "name=\"" + name + "\"";
    var head := "<meta ";
    var mid := " content=\"";
    var html := head + key + mid + value + "\"" + rest;
    var c := 6 + |key|;
    assert TextAtIgnoreCase(html, 0, "<meta") by {
      assert html[..5] == "<meta";
      SameIgnoringCase("<meta");
    }
    assert IsWhitespace(html[5]) && !IsWhitespace(html[6]) by {
      assert html[5] == ' ' && html[6] == key[0];
    }
    assert TextAtIgnoreCase(html, 6, key) by {
      assert html[6..c] == key;
      SameIgnoringCase(key);
    }
    assert IsWhitespace(html[c]) && !IsWhitespace(html[c + 1]) by {
      assert html[c] == mid[0] && html[c + 1] == mid[1];
    }
    assert TextAtIgnoreCase(html, c + 1, "content=\"") by {
      assert html[c + 1..c + 10] == mid[1..];
      SameIgnoringCase(mid[1..]);
    }
    assert html[c + 10..c + 10 + |value|] == value && html[c + 10 + |value|] == '"';
    MetaAtPieces(html, name, 0, value);
  }

  // ---------------------------------------------------------------------
  // getProjectName, determineCohort
  // ---------------------------------------------------------------------

  const ProjectMappings: map<string, string> := map[
    "Bootstrap Project" := "Bootstrap",
    "JS4 - ECMA Script" := "JavaScript ECMA",
    "JavaScript Unit Final Coding Project - WAR Card Game" := "JavaScript WAR Game",
    "API's and Fetch" := "API Integration",
    "Final Coding Project" := "Final Project"]

  /** `getProjectName` as intended: the mapped name of a known assignment, and the assignment name otherwise. */
  function ProjectName(assignmentName: string): (r: string)
    ensures assignmentName in ProjectMappings ==> r == ProjectMappings[assignmentName]
    ensures assignmentName !in ProjectMappings ==> r == assignmentName
  {
    if assignmentName in ProjectMappings then ProjectMappings[assignmentName] else assignmentName
  }

  /**
   * `projectMappings[assignmentName] || assignmentName` as written: a name
   * that is a property inherited from `Object.prototype` yields that
   * property, which the template literal then renders as text.
   */
  function ProjectNameAsWritten(assignmentName: string): (r: string)
    ensures assignmentName in ProjectMappings ==> r == ProjectMappings[assignmentName]
    ensures assignmentName !in ProjectMappings && assignmentName !in InheritedMethods && assignmentName != "__proto__"
            ==> r == assignmentName
  {
    if assignmentName in ProjectMappings then ProjectMappings[assignmentName]
    else if assignmentName == "__proto__" then "[object Object]"
    else if assignmentName in InheritedMethods then NativeFunctionText(assignmentName)
    else assignmentName
  }

  /** An assignment named `constructor` is reported under JavaScript source text instead of its own name. */
  lemma ProjectNameAsWrittenLeaksPrototype()
    ensures ProjectNameAsWritten("constructor") == "function Object() { [native code] }"
    ensures ProjectName("constructor") == "constructor"
  {
    assert "constructor" !in ProjectMappings;
    ConstructorText();
  }

  /** The two differ exactly on the names `Object.prototype` supplies that are not assignments. */
  lemma ProjectNamesAgree(assignmentName: string)
    ensures ProjectNameAsWritten(assignmentName) == ProjectName(assignmentName)
            <==> assignmentName in ProjectMappings
                 || (assignmentName !in InheritedMethods && assignmentName != "__proto__")
  {
    if assignmentName !in ProjectMappings && assignmentName in InheritedMethods {
      assert ProjectNameAsWritten(assignmentName)[0] == 'f';
      assert assignmentName[0] != 'f';
    }
  }

  /** A calendar date as the host's `Date` gives it: `getFullYear()`, `getMonth() + 1`, `getDate()`. */
  datatype LocalDate = LocalDate(year: int, month: int, day: int)

  /** The cohort's start within its year: winter/spring, spring/summer or summer/autumn. */
  function CohortStart(month: int): string {
    if 2 <= month <= 4 then "-2-25-fe-central"
    else if 5 <= month <= 7 then "-4-30-fe-central"
    else if 8 <= month <= 10 then "-7-30-fe-central"
    else "-2-25-fe-central"
  }

  /** `determineCohort`: the year followed by the start of the cohort the month falls in. */
  function DetermineCohort(email: string, date: LocalDate): (cohort: string)
    ensures StartsWith(cohort, IntToString(date.year))
  {
    StartsWithSelf(IntToString(date.year), CohortStart(date.month));
    IntToString(date.year) + CohortStart(date.month)
  }

  /**
   * The cohort depends on the month and the year only; months 2 to 4, 5 to
   * 7 and 8 to 10 each share one cohort, and the remaining months fall back
   * to the first.
   */
  lemma CohortByMonth(email: string, other: string, date: LocalDate)
    ensures DetermineCohort(email, date) == DetermineCohort(other, date)
    ensures var y := IntToString(date.year);
      (2 <= date.month <= 4 ==> DetermineCohort(email, date) == y + "-2-25-fe-central") &&
      (5 <= date.month <= 7 ==> DetermineCohort(email, date) == y + "-4-30-fe-central") &&
      (8 <= date.month <= 10 ==> DetermineCohort(email, date) == y + "-7-30-fe-central") &&
      (!(2 <= date.month <= 10) ==> DetermineCohort(email, date) == DetermineCohort(email, date.(month := 2)))
  {
  }

  // ---------------------------------------------------------------------
  // parseGradingFiles
  // ---------------------------------------------------------------------

  /** An HTML file of the output directory: its name, its text and its modification date. */
  datatype HtmlFile = HtmlFile(name: string, html: string, mtime: LocalDate)

  /** `value || fallback` on a meta value: a missing or empty value gives the fallback. */
  function OrDefault(value: Option<string>, fallback: string): string {
    if value.Some? && value.value != "" then value.value else fallback
  }

  /** The `M/D/YYYY` text of a date. */
  function DateText(date: LocalDate): string {
    IntToString(date.month) + "/" + IntToString(date.day) + "/" + IntToString(date.year)
  }

  /** The five meta values a graded report carries, each missing (null) or present. */
  datatype MetaValues = MetaValues(studentName: Option<string>, studentEmail: Option<string>,
                                   weekNumber: Option<string>, assignmentName: Option<string>,
                                   gradingDate: Option<string>)

  function ReadMeta(html: string): MetaValues {
    MetaValues(ExtractMetaContent(html, "student-name"), ExtractMetaContent(html, "student-email"),
               ExtractMetaContent(html, "week-number"), ExtractMetaContent(html, "assignment-name"),
               ExtractMetaContent(html, "grading-date"))
  }

  /**
   * The record built from a file's meta values.  `parseDate` is
   * `new Date(text)` read in the host's time zone, and `dueDate` is
   * `calculateDueDate`.
   */
  function RecordOf(meta: MetaValues, mtime: LocalDate, parseDate: string -> LocalDate,
                    dueDate: (string, LocalDate) -> string): Record {
    var studentName := OrDefault(meta.studentName, "Unknown");
    var studentEmail := OrDefault(meta.studentEmail, "N/A");
    var weekNumber := OrDefault(meta.weekNumber, "Unknown");
    var assignmentName := OrDefault(meta.assignmentName, "Unknown");
    var submissionDate := if meta.gradingDate.Some? && meta.gradingDate.value != "" then parseDate(meta.gradingDate.value) else mtime;
    Record("Week " + weekNumber + ": " + ProjectName(assignmentName), "Front End Software Developer",
           studentName, studentEmail, DetermineCohort(studentEmail, submissionDate),
           dueDate(weekNumber, submissionDate), "Submitted", DateText(submissionDate), "Graded")
  }

  function MakeRecord(file: HtmlFile, parseDate: string -> LocalDate, dueDate: (string, LocalDate) -> string): Record {
    RecordOf(ReadMeta(file.html), file.mtime, parseDate, dueDate)
  }

  /**
   * What a record says: the project names the week and the mapped
   * assignment; a missing or empty name, week or assignment reads "Unknown"
   * and a missing email "N/A"; the cohort and the submission date come from
   * the grading date when there is one and from the modification date
   * otherwise; the other three columns are fixed.
   */
  lemma RecordFields(meta: MetaValues, mtime: LocalDate, parseDate: string -> LocalDate,
                     dueDate: (string, LocalDate) -> string)
    ensures var r := RecordOf(meta, mtime, parseDate, dueDate);
      var week := OrDefault(meta.weekNumber, "Unknown");
      (meta.studentName.None? ==> r.studentName == "Unknown") &&
      (meta.studentName.Some? && meta.studentName.value != "" ==> r.studentName == meta.studentName.value) &&
      (meta.studentEmail.None? ==> r.email == "N/A") &&
      (meta.weekNumber.None? ==> week == "Unknown") &&
      (meta.assignmentName.None? ==> r.project == "Week " + week + ": " + "Unknown") &&
      (meta.assignmentName.Some? && meta.assignmentName.value in ProjectMappings ==>
         r.project == "Week " + week + ": " + ProjectMappings[meta.assignmentName.value]) &&
      (meta.gradingDate.None? ==>
         r.submissionDate == DateText(mtime) && r.cohort == DetermineCohort(r.email, mtime)) &&
      r.bootcamp == "Front End Software Developer" && r.status == "Submitted" && r.grade == "Graded"
  {
    UnknownIsUnmapped();
  }

  lemma UnknownIsUnmapped()
    ensures ProjectName("Unknown") == "Unknown"
  {
    assert "Unknown" !in ProjectMappings;
  }

  function RecordMaker(parseDate: string -> LocalDate, dueDate: (string, LocalDate) -> string): HtmlFile -> Record {
    file => MakeRecord(file, parseDate, dueDate)
  }

  /** The records of the files, one per file in order. */
  function Records(files: seq<HtmlFile>, parseDate: string -> LocalDate, dueDate: (string, LocalDate) -> string)
    : seq<Record>
  {
    Map(RecordMaker(parseDate, dueDate), files)
  }

  /** There is one record per file, and record `k` is the record of file `k`. */
  lemma RecordsInOrder(files: seq<HtmlFile>, parseDate: string -> LocalDate,
                       dueDate: (string, LocalDate) -> string, k: nat)
    requires k < |files|
    ensures |Records(files, parseDate, dueDate)| == |files|
    ensures Records(files, parseDate, dueDate)[k] == MakeRecord(files[k], parseDate, dueDate)
  {
    MapAt(RecordMaker(parseDate, dueDate), files, k);
  }

  /** The body of the loop of `parseGradingFiles`: the meta values, then the record. */
  method ProcessFile(file: HtmlFile, parseDate: string -> LocalDate, dueDate: (string, LocalDate) -> string)
    returns (record: Record)
    ensures record == MakeRecord(file, parseDate, dueDate)
  {
    var meta := ReadMeta(file.html);
    record := RecordOf(meta, file.mtime, parseDate, dueDate);
  }

  /** `parseGradingFiles`: a record is pushed for every file. */
  method ParseGradingFiles(files: seq<HtmlFile>, parseDate: string -> LocalDate, dueDate: (string, LocalDate) -> string)
    returns (gradingData: seq<Record>)
    ensures gradingData == Records(files, parseDate, dueDate)
  {
    gradingData := [];
    for i := 0 to |files|
      invariant gradingData == Records(files[..i], parseDate, dueDate)
    {
      var record := ProcessFile(files[i], parseDate, dueDate);
      MapSnoc(RecordMaker(parseDate, dueDate), files, i);
      gradingData := gradingData + [record];
    }
    TakeAll(files);
  }

  // ---------------------------------------------------------------------
  // filterFilesByMonth
  // ---------------------------------------------------------------------

  /**
   * The filter's test: the leftmost `YYYY-MM-DDT` stamp of the name decides;
   * a name without one falls back to the modification date.
   */
  predicate InMonth(file: HtmlFile, targetMonth: int, targetYear: int) {
    match FirstStamp(file.name, 0, None)
    case Some(i) =>
      FirstStampFacts(file.name, 0, None);
      StampYear(file.name, i) == targetYear && StampMonth(file.name, i) == targetMonth
    case None => file.mtime.year == targetYear && file.mtime.month == targetMonth
  }

  /** `filterFilesByMonth`: the files that pass the test, in order. */
  function FilterFilesByMonth(files: seq<HtmlFile>, targetMonth: int, targetYear: int): (r: seq<HtmlFile>)
    ensures |r| <= |files|
    decreases |files|
  {
    if files == [] then []
    else
      var rest := FilterFilesByMonth(files[..|files| - 1], targetMonth, targetYear);
      if InMonth(files[|files| - 1], targetMonth, targetYear) then rest + [files[|files| - 1]] else rest
  }

  /** Every file kept is one of the files and passes the test. */
  lemma {:induction false} FilterSound(files: seq<HtmlFile>, targetMonth: int, targetYear: int)
    ensures forall k :: 0 <= k < |FilterFilesByMonth(files, targetMonth, targetYear)| ==>
              FilterFilesByMonth(files, targetMonth, targetYear)[k] in files &&
              InMonth(FilterFilesByMonth(files, targetMonth, targetYear)[k], targetMonth, targetYear)
    decreases |files|
  {
    if files != [] {
      var init := files[..|files| - 1];
      FilterSound(init, targetMonth, targetYear);
      var rest := FilterFilesByMonth(init, targetMonth, targetYear);
      var r := FilterFilesByMonth(files, targetMonth, targetYear);
      var last := files[|files| - 1];
      if InMonth(last, targetMonth, targetYear) {
        assert r == rest + [last];
      } else {
        assert r == rest;
      }
      forall k | 0 <= k < |r| ensures r[k] in files && InMonth(r[k], targetMonth, targetYear) {
        if k < |rest| {
          assert r[k] == rest[k];
          assert rest[k] in init && InMonth(rest[k], targetMonth, targetYear);
          var j :| 0 <= j < |init| && init[j] == rest[k];
          assert files[j] == init[j];
        } else {
          assert r[k] == last;
        }
      }
    }
  }

  /** Every file that passes the test is kept. */
  lemma {:induction false} FilterComplete(files: seq<HtmlFile>, targetMonth: int, targetYear: int, j: nat)
    requires j < |files| && InMonth(files[j], targetMonth, targetYear)
    ensures files[j] in FilterFilesByMonth(files, targetMonth, targetYear)
    decreases |files|
  {
    var init := files[..|files| - 1];
    if j < |files| - 1 {
      assert init[j] == files[j];
      FilterComplete(init, targetMonth, targetYear, j);
    }
  }

  /**
   * A name with a stamp is kept exactly when its first stamp has the target
   * year and month; the modification date then plays no part.
   */
  lemma FirstStampDecides(file: HtmlFile, i: nat, targetMonth: int, targetYear: int)
    requires IsFirstStamp(file.name, i)
    ensures InMonth(file, targetMonth, targetYear)
            <==> StampYear(file.name, i) == targetYear && StampMonth(file.name, i) == targetMonth
  {
    FirstStampFacts(file.name, 0, None);
    var f := FirstStamp(file.name, 0, None);
    assert f.Some?;
    assert f.value <= i;
    assert f.value >= i;
  }

  /**
   * A report named as src/index.js names it, `<name>-week<n>-<ISO time>`
   * with the name free of digits and a week number of at most three digits,
   * is kept exactly when the year and month of its time are the target's.
   */
  lemma ReportNameInMonth(file: HtmlFile, a: string, w: string, year: string, month: string, day: string,
                          rest: string, targetMonth: int, targetYear: int)
    requires NoDigits(a) && 1 <= |w| <= 3
    requires |year| == 4 && |month| == 2 && |day| == 2 && IsDigits(year) && IsDigits(month) && IsDigits(day)
    requires file.name == a + w + "-" + year + "-" + month + "-" + day + "T" + rest
    ensures InMonth(file, targetMonth, targetYear) <==> ParseDigits(year) == targetYear && ParseDigits(month) == targetMonth
  {
    var p := |a| + |w| + 1;
    ReportNameStamp(file.name, a, w, year, month, day, rest);
    FirstStampDecides(file, p, targetMonth, targetYear);
  }

  // ---------------------------------------------------------------------
  // generateReport
  // ---------------------------------------------------------------------

  /** The file `generateReport` writes: its name and its text, which starts with a byte-order mark. */
  datatype ReportFile = ReportFile(fileName: string, contents: string)

  function ReportFileName(month: int, year: int): string {
    "grading_report_" + IntToString(month) + "_" + IntToString(year) + ".csv"
  }

  /**
   * `generateReport` after the month is entered and the directory read:
   * nothing is written when no file is of the month; otherwise the report
   * holds one record per file of the month, in order.
   */
  method GenerateReport(htmlFiles: seq<HtmlFile>, month: int, year: int, parseDate: string -> LocalDate,
                        dueDate: (string, LocalDate) -> string) returns (report: Option<ReportFile>)
    ensures FilterFilesByMonth(htmlFiles, month, year) == [] ==> report.None?
    ensures FilterFilesByMonth(htmlFiles, month, year) != [] ==>
      report == Some(ReportFile(ReportFileName(month, year),
                                "\U{FEFF}" + CsvText(Records(FilterFilesByMonth(htmlFiles, month, year), parseDate, dueDate))))
  {
    var monthFiles := FilterFilesByMonth(htmlFiles, month, year);
    if |monthFiles| == 0 {
      return None;
    }
    var gradingData := ParseGradingFiles(monthFiles, parseDate, dueDate);
    var csvContent := GenerateCsv(gradingData);
    report := Some(ReportFile(ReportFileName(month, year), "\U{FEFF}" + csvContent));
  }
}
