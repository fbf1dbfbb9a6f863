/**
 * The mentor-session converter (output/mentorToCSV.js): a comma-separated
 * export of booked sessions becomes tab-separated rows ready to paste into a
 * spreadsheet.  The line parser is a character loop with a quote toggle: a
 * simplified form of RFC 4180 section 2 in which quotes are never kept and
 * a doubled quote is not an escaped one.
 */
module MentorCsv {
  import opened Wrappers
  import opened Sequences
  import opened JsString

  // ---------------------------------------------------------------------
  // parseCSVLine
  // ---------------------------------------------------------------------

  /** The loop state of `parseCSVLine`: the fields so far, the one being read, and the quote toggle. */
  datatype ScanState = ScanState(fields: seq<string>, current: string, inQuotes: bool)

  const Start := ScanState([], "", false)

  /** One character: a quote toggles, a comma outside quotes ends the field, anything else is kept. */
  function Step(st: ScanState, c: char): ScanState {
    if c == '"' then ScanState(st.fields, st.current, !st.inQuotes)
    else if c == ',' && !st.inQuotes then ScanState(st.fields + [Trim(st.current)], "", st.inQuotes)
    else ScanState(st.fields, st.current + [c], st.inQuotes)
  }

  /** The state after reading `s` from `st`. */
  function Scan(st: ScanState, s: string): ScanState
    decreases |s|
  {
    if s == [] then st else Step(Scan(st, s[..|s| - 1]), s[|s| - 1])
  }

  /** The fields `parseCSVLine` returns: those ended by commas, then the last one. */
  function CsvFields(line: string): seq<string> {
    var st := Scan(Start, line);
    st.fields + [Trim(st.current)]
  }

  /** `parseCSVLine`. */
  method ParseCsvLine(line: string) returns (result: seq<string>)
    ensures result == CsvFields(line)
  {
    result := [];
    var current := "";
    var inQuotes := false;
    var i := 0;
    while i < |line|
      invariant 0 <= i <= |line|
      invariant Scan(Start, line[..i]) == ScanState(result, current, inQuotes)
    {
      var c := line[i];
      if c == '"' {
        inQuotes := !inQuotes;
      } else if c == ',' && !inQuotes {
        result := result + [Trim(current)];
        current := "";
      } else {
        current := current + [c];
      }
      assert line[..i + 1][..i] == line[..i];
      i := i + 1;
    }
    assert line[..i] == line;
    result := result + [Trim(current)];
  }

  /** Reading `a + b` is reading `a`, then `b`. */
  lemma {:induction false} ScanAppend(st: ScanState, a: string, b: string)
    ensures Scan(st, a + b) == Scan(Scan(st, a), b)
    decreases |b|
  {
    if b == [] {
      assert a + b == a;
    } else {
      assert (a + b)[..|a + b| - 1] == a + b[..|b| - 1];
      ScanAppend(st, a, b[..|b| - 1]);
    }
  }

  /** The number of `"` in `s`. */
  function QuoteCount(s: string): nat {
    if s == [] then 0 else QuoteCount(s[..|s| - 1]) + (if s[|s| - 1] == '"' then 1 else 0)
  }

  /** The number of commas in `s` preceded by an even number of quotes. */
  function CommasOutsideQuotes(s: string): nat {
    if s == [] then 0
    else
      var init := s[..|s| - 1];
      CommasOutsideQuotes(init) + (if s[|s| - 1] == ',' && QuoteCount(init) % 2 == 0 then 1 else 0)
  }

  /** The toggle is on after an odd number of quotes, and every comma outside quotes has ended a field. */
  lemma {:induction false} ScanCounts(s: string)
    ensures Scan(Start, s).inQuotes <==> QuoteCount(s) % 2 == 1
    ensures |Scan(Start, s).fields| == CommasOutsideQuotes(s)
    decreases |s|
  {
    if s != [] {
      ScanCounts(s[..|s| - 1]);
    }
  }

  /** `parseCSVLine` returns one field more than there are commas outside quotes. */
  lemma FieldCount(line: string)
    ensures |CsvFields(line)| == CommasOutsideQuotes(line) + 1
  {
    ScanCounts(line);
  }

  /** A character that is a quote, or is absent from the text, is in no field or partial field. */
  lemma {:induction false} ScanKeepsOut(s: string, c: char)
    requires c == '"' || c !in s
    ensures forall k :: 0 <= k < |Scan(Start, s).fields| ==> c !in Scan(Start, s).fields[k]
    ensures c !in Scan(Start, s).current
    decreases |s|
  {
    if s != [] {
      var init := s[..|s| - 1];
      assert c == '"' || c !in init by {
        if c != '"' {
          forall k | 0 <= k < |init| ensures init[k] != c {
            assert init[k] == s[k];
          }
        }
      }
      ScanKeepsOut(init, c);
      var st := Scan(Start, init);
      if s[|s| - 1] == ',' && !st.inQuotes {
        TrimKeepsOut(st.current, c);
      }
    }
  }

  /** No field holds a quote, and a character absent from the line is absent from every field. */
  lemma FieldsKeepOut(line: string, c: char)
    requires c == '"' || c !in line
    ensures forall k :: 0 <= k < |CsvFields(line)| ==> c !in CsvFields(line)[k]
  {
    ScanKeepsOut(line, c);
    TrimKeepsOut(Scan(Start, line).current, c);
  }

  /** Quote-free text adds to the current field when in quotes, or when it has no comma. */
  lemma {:induction false} ScanPlain(st: ScanState, f: string)
    requires '"' !in f && (st.inQuotes || ',' !in f)
    ensures Scan(st, f) == ScanState(st.fields, st.current + f, st.inQuotes)
    decreases |f|
  {
    if f != [] {
      var init := f[..|f| - 1];
      assert f == init + [f[|f| - 1]];
      ScanPlain(st, init);
    }
  }

  /** Opening then closing a quote around quote-free text keeps its commas in the field. */
  lemma ScanQuoted(st: ScanState, f: string)
    requires '"' !in f && !st.inQuotes
    ensures Scan(st, "\"" + f + "\"") == ScanState(st.fields, st.current + f, false)
  {
    ScanAppend(st, "\"" + f, "\"");
    ScanAppend(st, "\"", f);
    assert Scan(st, "\"") == ScanState(st.fields, st.current, true);
    ScanPlain(ScanState(st.fields, st.current, true), f);
    assert Scan(Scan(st, "\"" + f), "\"") == Step(Scan(st, "\"" + f), '"');
  }

  /** A quoted field keeps its commas; only the quotes and the surrounding white space go. */
  lemma QuotedCommasKept(f: string)
    requires '"' !in f
    ensures CsvFields("\"" + f + "\"") == [Trim(f)]
  {
    ScanQuoted(Start, f);
    assert "" + f == f;
  }

  /** A doubled quote is not an escape: `a""b` reads as `ab`. */
  lemma DoubledQuoteDropped(a: string, b: string)
    requires '"' !in a && '"' !in b && ',' !in a && ',' !in b
    ensures CsvFields(a + "\"\"" + b) == [Trim(a + b)]
  {
    var st := ScanState([], a, false);
    ScanPlain(Start, a);
    assert "" + a == a;
    assert Scan(st, "\"\"") == st by {
      assert "\"\""[..1] == "\"";
      assert ""[..0] == "" && "\""[..0] == "";
    }
    ScanAppend(Start, a, "\"\"");
    ScanAppend(Start, a + "\"\"", b);
    ScanPlain(st, b);
  }

  /** `parts.map(trim)`. */
  function TrimAll(parts: seq<string>): (r: seq<string>)
    ensures |r| == |parts| && forall k :: 0 <= k < |parts| ==> r[k] == Trim(parts[k])
  {
    seq(|parts|, k requires 0 <= k < |parts| => Trim(parts[k]))
  }

  /** Reading comma-joined fields free of quotes and commas gives each field, trimmed. */
  lemma {:induction false} ScanJoined(fields: seq<string>, parts: seq<string>)
    requires |parts| >= 1
    requires forall k :: 0 <= k < |parts| ==> '"' !in parts[k] && ',' !in parts[k]
    ensures Scan(ScanState(fields, "", false), Join(parts, ",")) ==
            ScanState(fields + TrimAll(parts[..|parts| - 1]), parts[|parts| - 1], false)
    decreases |parts|
  {
    var st := ScanState(fields, "", false);
    var p0 := parts[0];
    ScanPlain(st, p0);
    assert "" + p0 == p0;
    if |parts| > 1 {
      var rest := parts[1..];
      assert Join(parts, ",") == p0 + "," + Join(rest, ",");
      ScanAppend(st, p0 + ",", Join(rest, ","));
      ScanAppend(st, p0, ",");
      var st1 := ScanState(fields + [Trim(p0)], "", false);
      assert Scan(st, p0 + ",") == st1 by {
        assert Scan(Scan(st, p0), ",") == Step(Scan(st, p0), ',');
      }
      ScanJoined(fields + [Trim(p0)], rest);
      TrimAllCons(parts);
    }
  }

  lemma TrimAllCons(parts: seq<string>)
    requires |parts| >= 2
    ensures TrimAll(parts[..|parts| - 1]) == [Trim(parts[0])] + TrimAll(parts[1..][..|parts| - 2])
  {
  }

  /** With no quotes in the line, `parseCSVLine` is `split(",")` with every part trimmed. */
  lemma PlainLineIsSplit(parts: seq<string>)
    requires |parts| >= 1
    requires forall k :: 0 <= k < |parts| ==> '"' !in parts[k] && ',' !in parts[k]
    ensures CsvFields(Join(parts, ",")) == TrimAll(parts)
  {
    ScanJoined([], parts);
    var st := Scan(Start, Join(parts, ","));
    assert st.fields == TrimAll(parts[..|parts| - 1]);
    assert st.current == parts[|parts| - 1];
    TrimAllSnoc(parts);
  }

  lemma TrimAllSnoc(parts: seq<string>)
    requires |parts| >= 1
    ensures TrimAll(parts) == TrimAll(parts[..|parts| - 1]) + [Trim(parts[|parts| - 1])]
  {
    var a := TrimAll(parts);
    var b := TrimAll(parts[..|parts| - 1]) + [Trim(parts[|parts| - 1])];
    assert |a| == |b|;
    forall k | 0 <= k < |a| ensures a[k] == b[k] {
      if k < |parts| - 1 {
        assert b[k] == TrimAll(parts[..|parts| - 1])[k] == Trim(parts[..|parts| - 1][k]);
      }
    }
  }

  // ---------------------------------------------------------------------
  // formatDate
  // ---------------------------------------------------------------------

  /** A destructured array element rendered by a template literal: a missing one prints `undefined`. */
  function Element(parts: seq<string>, k: nat): string {
    if k < |parts| then parts[k] else "undefined"
  }

  /**
   * `formatDate`: `"YYYY-MM-DD hh:mm am"` becomes `"MM/DD/YYYY hh:mm am"`;
   * an empty string stays empty and a single word is returned as it is.
   */
  function FormatDate(dateString: string): string {
    if dateString == "" then ""
    else
      var parts := Split(dateString, ' ');
      if |parts| < 2 then dateString
      else
        var timePart := parts[1] + " " + (if |parts| > 2 then parts[2] else "");
        var ymd := Split(parts[0], '-');
        Element(ymd, 1) + "/" + Element(ymd, 2) + "/" + ymd[0] + " " + timePart
  }

  /** The date is reordered month, day, year, and the time and meridiem are kept. */
  lemma FormatDateReorders(year: string, month: string, day: string, time: string, meridiem: string)
    requires ' ' !in year && ' ' !in month && ' ' !in day && ' ' !in time && ' ' !in meridiem
    requires '-' !in year && '-' !in month && '-' !in day
    ensures FormatDate(year + "-" + month + "-" + day + " " + time + " " + meridiem)
            == month + "/" + day + "/" + year + " " + time + " " + meridiem
  {
    var date := year + "-" + month + "-" + day;
    JoinThree(year, month, day, "-");
    SplitJoin([year, month, day], '-');
    assert ' ' !in date;
    var s := date + " " + time + " " + meridiem;
    JoinThree(date, time, meridiem, " ");
    SplitJoin([date, time, meridiem], ' ');
    assert s != "" by {
      assert |s| >= 2;
    }
  }

  lemma JoinThree(a: string, b: string, c: string, sep: string)
    ensures Join([a, b, c], sep) == a + sep + b + sep + c
  {
    assert [a, b, c][1..] == [b, c];
    assert [b, c][1..] == [c];
    assert Join([b, c], sep) == b + sep + c;
    assert Join([a, b, c], sep) == a + sep + (b + sep + c);
  }

  /** A single word comes back unchanged, and so does the empty string. */
  lemma FormatDateSingleWord(s: string)
    requires ' ' !in s
    ensures FormatDate(s) == s
  {
    if s != "" {
      SplitNoSeparator(s, ' ');
    }
  }

  lemma {:induction false} SplitKeepsOut(s: string, sep: char, c: char)
    requires c !in s
    ensures forall k :: 0 <= k < |Split(s, sep)| ==> c !in Split(s, sep)[k]
    decreases |s|
  {
    if s != [] {
      SplitKeepsOut(s[1..], sep, c);
    }
  }

  /** A character absent from the input and from the added text stays absent. */
  lemma FormatDateKeepsOut(s: string, c: char)
    requires c !in s && c !in "/ undefined"
    ensures c !in FormatDate(s)
  {
    var parts := Split(s, ' ');
    SplitKeepsOut(s, ' ', c);
    if s != "" && |parts| >= 2 {
      SplitKeepsOut(parts[0], '-', c);
    }
  }

  // ---------------------------------------------------------------------
  // convertCsvToExcelFormat
  // ---------------------------------------------------------------------

  /** The output columns, in order. */
  const OutputColumns := ["#", "Student Name", "Email Address", "Session Name", "Remarks", "Date", "Time Zone"]

  const HeaderLine := Join(OutputColumns, "\t") + "\n"

  /** The input columns a row is built from, by the role each plays. */
  datatype InputColumns = InputColumns(first: string, last: string, email: string, session: string,
                                       remarks: string, start: string, zone: string)

  /** The names of those columns in a scheduling export. */
  const InputNames := InputColumns("Invitee First Name", "Invitee Last Name", "Invitee Email", "Event Type Name",
                                   "Response 1", "Start Date & Time", "Invitee Time Zone")

  /** `headerMap[name]`: the last header named `name`, since later headers overwrite earlier ones. */
  function HeaderIndex(names: seq<string>, name: string): (r: Option<nat>)
    ensures r.Some? ==> r.value < |names| && names[r.value] == name
    ensures r.Some? ==> forall k :: r.value < k < |names| ==> names[k] != name
    ensures r.None? ==> forall k :: 0 <= k < |names| ==> names[k] != name
  {
    if names == [] then None
    else if names[|names| - 1] == name then Some(|names| - 1)
    else HeaderIndex(names[..|names| - 1], name)
  }

  /** The `headers.forEach` loop filling `headerMap` with each header, trimmed, and its index. */
  /** The header map gives each trimmed header name its last column, and holds no other name. */
  ghost predicate MapsHeaders(headerMap: map<string, nat>, names: seq<string>) {
    (forall name :: name in headerMap <==> HeaderIndex(names, name).Some?) &&
    (forall name :: name in headerMap ==> HeaderIndex(names, name) == Some(headerMap[name]))
  }

  method BuildHeaderMap(headers: seq<string>) returns (headerMap: map<string, nat>)
    ensures MapsHeaders(headerMap, TrimAll(headers))
  {
    ghost var names := TrimAll(headers);
    headerMap := map[];
    var i := 0;
    while i < |headers|
      invariant 0 <= i <= |headers|
      invariant MapsHeaders(headerMap, names[..i])
    {
      assert names[..i + 1][..i] == names[..i];
      assert names[..i + 1][i] == Trim(headers[i]);
      headerMap := headerMap[Trim(headers[i]) := i];
      i := i + 1;
    }
    assert names[..i] == names;
  }

  /** `row[headerMap[name]] || ""`: the named column, or `""` when the header or the value is missing. */
  function Column(names: seq<string>, row: seq<string>, name: string): string {
    match HeaderIndex(names, name)
    case None => ""
    case Some(k) => if k < |row| then row[k] else ""
  }

  /** A numbered input line. */
  datatype SourceLine = SourceLine(index: nat, text: string)

  /** The seven values of the output row for input line `l`. */
  function RowValues(names: seq<string>, cols: InputColumns, l: SourceLine): (r: seq<string>)
    ensures |r| == 7
  {
    var row := CsvFields(l.text);
    [ NatToString(l.index),
      Trim(Column(names, row, cols.first) + " " + Column(names, row, cols.last)),
      Column(names, row, cols.email),
      Column(names, row, cols.session),
      Column(names, row, cols.remarks),
      FormatDate(Column(names, row, cols.start)),
      Column(names, row, cols.zone) ]
  }

  /** An output row without its line end: the values joined by tabs. */
  function RowText(names: seq<string>, cols: InputColumns, l: SourceLine): string {
    Join(RowValues(names, cols, l), "\t")
  }

  function RowLine(names: seq<string>, cols: InputColumns, l: SourceLine): string {
    Join(RowValues(names, cols, l), "\t") + "\n"
  }

  function RowLineOf(names: seq<string>, cols: InputColumns): SourceLine -> string {
    l => RowLine(names, cols, l)
  }

  /** The lines among the first `n` that are kept: the non-blank ones after the header line, in order. */
  function DataLines(lines: seq<string>, n: nat): seq<SourceLine>
    requires n <= |lines|
  {
    if n <= 1 then []
    else DataLines(lines, n - 1) + (if Trim(lines[n - 1]) != "" then [SourceLine(n - 1, lines[n - 1])] else [])
  }

  /** Each of `r` is a non-blank line among the first `n` after the header line, in input order. */
  predicate KeptLines(lines: seq<string>, n: nat, r: seq<SourceLine>)
    requires n <= |lines|
  {
    (forall k :: 0 <= k < |r| ==> 1 <= r[k].index < n && r[k].text == lines[r[k].index] && Trim(r[k].text) != "") &&
    (forall k, m :: 0 <= k < m < |r| ==> r[k].index < r[m].index)
  }

  /** Every kept line is a non-blank input line after the header line, and they keep their order. */
  lemma {:induction false} DataLinesSound(lines: seq<string>, n: nat)
    requires n <= |lines|
    ensures KeptLines(lines, n, DataLines(lines, n))
  {
    if n > 1 {
      DataLinesSound(lines, n - 1);
      var p := DataLines(lines, n - 1);
      var r := DataLines(lines, n);
      if Trim(lines[n - 1]) != "" {
        var x := SourceLine(n - 1, lines[n - 1]);
        assert r == p + [x];
        forall k | 0 <= k < |r| ensures r[k] == if k < |p| then p[k] else x {
        }
        assert forall k :: 0 <= k < |p| ==> p[k].index < x.index;
      } else {
        assert r == p;
      }
    }
  }

  /** Every non-blank line after the header line is kept. */
  lemma {:induction false} DataLinesComplete(lines: seq<string>, n: nat, i: nat)
    requires 1 <= i < n <= |lines| && Trim(lines[i]) != ""
    ensures SourceLine(i, lines[i]) in DataLines(lines, n)
  {
    if i < n - 1 {
      DataLinesComplete(lines, n - 1, i);
    }
  }

  /** The text `convertCsvToExcelFormat` produces. */
  function ExcelText(csvData: string): string {
    var lines := Split(csvData, '\n');
    var names := TrimAll(Split(lines[0], ','));
    HeaderLine + Concat(RowLineOf(names, InputNames), DataLines(lines, |lines|))
  }

  /** The lookup the loop body does: `row[headerMap[name]] || ""`. */
  function Lookup(headerMap: map<string, nat>, row: seq<string>, name: string): string {
    if name in headerMap && headerMap[name] < |row| then row[headerMap[name]] else ""
  }

  /** Reading through the map is reading the named column. */
  lemma LookupIsColumn(headerMap: map<string, nat>, names: seq<string>, row: seq<string>, name: string)
    requires name in headerMap <==> HeaderIndex(names, name).Some?
    requires name in headerMap ==> HeaderIndex(names, name) == Some(headerMap[name])
    ensures Lookup(headerMap, row, name) == Column(names, row, name)
  {
  }

  /** One output row, built as the loop body does it, from the parsed fields and the header map. */
  method BuildRow(headerMap: map<string, nat>, ghost names: seq<string>, cols: InputColumns, i: nat, line: string)
    returns (rowLine: string)
    requires MapsHeaders(headerMap, names)
    ensures rowLine == RowLine(names, cols, SourceLine(i, line))
  {
    var row := ParseCsvLine(line);
    var first := Lookup(headerMap, row, cols.first);
    var last := Lookup(headerMap, row, cols.last);
    var email := Lookup(headerMap, row, cols.email);
    var session := Lookup(headerMap, row, cols.session);
    var remarks := Lookup(headerMap, row, cols.remarks);
    var start := Lookup(headerMap, row, cols.start);
    var zone := Lookup(headerMap, row, cols.zone);
    LookupIsColumn(headerMap, names, row, cols.first);
    LookupIsColumn(headerMap, names, row, cols.last);
    LookupIsColumn(headerMap, names, row, cols.email);
    LookupIsColumn(headerMap, names, row, cols.session);
    LookupIsColumn(headerMap, names, row, cols.remarks);
    LookupIsColumn(headerMap, names, row, cols.start);
    LookupIsColumn(headerMap, names, row, cols.zone);
    var values := [NatToString(i), Trim(first + " " + last), email, session, remarks, FormatDate(start), zone];
    assert values == RowValues(names, cols, SourceLine(i, line));
    rowLine := Join(values, "\t") + "\n";
  }

  /** One more input line adds its row when it is not blank, and nothing otherwise. */
  lemma RowsStep(lines: seq<string>, names: seq<string>, cols: InputColumns, i: nat)
    requires 1 <= i < |lines|
    ensures Concat(RowLineOf(names, cols), DataLines(lines, i + 1)) ==
      Concat(RowLineOf(names, cols), DataLines(lines, i)) +
      (if Trim(lines[i]) != "" then RowLine(names, cols, SourceLine(i, lines[i])) else "")
  {
    var xs := DataLines(lines, i);
    if Trim(lines[i]) != "" {
      ConcatSnoc(RowLineOf(names, cols), xs, SourceLine(i, lines[i]));
    } else {
      assert DataLines(lines, i + 1) == xs;
    }
  }

  /** The loop body for line `i`: its row when the line is not blank, nothing otherwise. */
  method NextRows(lines: seq<string>, headerMap: map<string, nat>, ghost names: seq<string>, cols: InputColumns, i: nat)
    returns (piece: string)
    requires 1 <= i < |lines|
    requires MapsHeaders(headerMap, names)
    ensures Concat(RowLineOf(names, cols), DataLines(lines, i + 1)) == Concat(RowLineOf(names, cols), DataLines(lines, i)) + piece
  {
    RowsStep(lines, names, cols, i);
    piece := "";
    if Trim(lines[i]) != "" {
      piece := BuildRow(headerMap, names, cols, i, lines[i]);
    }
  }

  /** The `for` loop over the data lines: the rows of the non-blank ones, in order. */
  method AppendRows(lines: seq<string>, headerMap: map<string, nat>, ghost names: seq<string>, cols: InputColumns)
    returns (rows: string)
    requires |lines| >= 1
    requires MapsHeaders(headerMap, names)
    ensures rows == Concat(RowLineOf(names, cols), DataLines(lines, |lines|))
  {
    rows := "";
    for i := 1 to |lines|
      invariant rows == Concat(RowLineOf(names, cols), DataLines(lines, i))
    {
      var piece := NextRows(lines, headerMap, names, cols, i);
      rows := rows + piece;
    }
  }

  /** `convertCsvToExcelFormat`. */
  method ConvertCsvToExcelFormat(csvData: string) returns (output: string)
    ensures output == ExcelText(csvData)
  {
    var lines := Split(csvData, '\n');
    var headers := Split(lines[0], ',');
    var headerMap := BuildHeaderMap(headers);
    var rows := AppendRows(lines, headerMap, TrimAll(headers), InputNames);
    output := HeaderLine + rows;
  }

  // ---------------------------------------------------------------------
  // The line structure of the output
  // ---------------------------------------------------------------------

  function RowTexts(names: seq<string>, cols: InputColumns, xs: seq<SourceLine>): (r: seq<string>)
    ensures |r| == |xs| && forall k :: 0 <= k < |xs| ==> r[k] == RowText(names, cols, xs[k])
  {
    seq(|xs|, k requires 0 <= k < |xs| => RowText(names, cols, xs[k]))
  }

  lemma {:induction false} JoinKeepsOut(parts: seq<string>, sep: string, c: char)
    requires c !in sep && forall k :: 0 <= k < |parts| ==> c !in parts[k]
    ensures c !in Join(parts, sep)
    decreases |parts|
  {
    if |parts| > 1 {
      JoinKeepsOut(parts[1..], sep, c);
    }
  }

  /** A text ended by a line end. */
  function Line(t: string): string {
    t + "\n"
  }

  /** Splitting lines, each ended by a line end, after a head line and before a last piece gives them back. */
  lemma {:induction false} SplitLines(head: string, ts: seq<string>, y: string)
    requires '\n' !in head && '\n' !in y
    requires forall k :: 0 <= k < |ts| ==> '\n' !in ts[k]
    ensures Split(head + "\n" + Concat(Line, ts) + y, '\n') == [head] + ts + [y]
    decreases |ts|
  {
    SplitNoSeparator(y, '\n');
    if ts == [] {
      SplitNoSeparator(head, '\n');
      assert head + "\n" + Concat(Line, ts) + y == head + ['\n'] + y;
      SplitAppend(head, y, '\n');
    } else {
      var us := ts[..|ts| - 1];
      var t := ts[|ts| - 1];
      var a := head + "\n" + Concat(Line, us) + t;
      assert head + "\n" + Concat(Line, ts) + y == a + ['\n'] + y;
      SplitAppend(a, y, '\n');
      SplitLines(head, us, t);
      assert ts == us + [t];
    }
  }

  /** The output rows are the row texts, each ended by a line end. */
  lemma {:induction false} RowsAreLines(names: seq<string>, cols: InputColumns, xs: seq<SourceLine>)
    ensures Concat(RowLineOf(names, cols), xs) == Concat(Line, RowTexts(names, cols, xs))
    decreases |xs|
  {
    if xs != [] {
      var ys := xs[..|xs| - 1];
      RowsAreLines(names, cols, ys);
      assert RowTexts(names, cols, xs)[..|xs| - 1] == RowTexts(names, cols, ys);
    }
  }

  lemma SevenKeepOut(v0: string, v1: string, v2: string, v3: string, v4: string, v5: string, v6: string, c: char)
    requires c !in v0 && c !in v1 && c !in v2 && c !in v3 && c !in v4 && c !in v5 && c !in v6
    ensures var values := [v0, v1, v2, v3, v4, v5, v6]; forall k :: 0 <= k < |values| ==> c !in values[k]
  {
  }

  /** No value of an output row holds a line end, given a data line without one. */
  lemma RowHasNoLineEnd(names: seq<string>, cols: InputColumns, l: SourceLine)
    requires '\n' !in l.text
    ensures '\n' !in RowText(names, cols, l)
  {
    var row := CsvFields(l.text);
    FieldsKeepOut(l.text, '\n');
    forall name ensures '\n' !in Column(names, row, name) {
    }
    var v0 := NatToString(l.index);
    var v1 := Trim(Column(names, row, cols.first) + " " + Column(names, row, cols.last));
    var v5 := FormatDate(Column(names, row, cols.start));
    assert '\n' !in v0 by {
      assert forall k :: 0 <= k < |v0| ==> IsAsciiDigit(v0[k]);
    }
    TrimKeepsOut(Column(names, row, cols.first) + " " + Column(names, row, cols.last), '\n');
    FormatDateKeepsOut(Column(names, row, cols.start), '\n');
    var values := RowValues(names, cols, l);
    var c2, c3, c4 := Column(names, row, cols.email), Column(names, row, cols.session),
                      Column(names, row, cols.remarks);
    var c6 := Column(names, row, cols.zone);
    assert values == [v0, v1, c2, c3, c4, v5, c6];
    SevenKeepOut(v0, v1, c2, c3, c4, v5, c6, '\n');
    JoinKeepsOut(values, "\t", '\n');
  }

  /**
   * The output lines: the tab-joined column names, then one row per
   * non-blank input line after the first, each ended by a line end.
   */
  lemma ExcelLines(csvData: string)
    ensures var lines := Split(csvData, '\n');
      Split(ExcelText(csvData), '\n') ==
        [Join(OutputColumns, "\t")] + RowTexts(TrimAll(Split(lines[0], ',')), InputNames, DataLines(lines, |lines|)) + [""]
  {
    var lines := Split(csvData, '\n');
    var names := TrimAll(Split(lines[0], ','));
    var xs := DataLines(lines, |lines|);
    var cols := InputNames;
    DataLinesSound(lines, |lines|);
    forall k | 0 <= k < |xs| ensures '\n' !in RowText(names, cols, xs[k]) {
      assert '\n' !in lines[xs[k].index];
      RowHasNoLineEnd(names, cols, xs[k]);
    }
    JoinKeepsOut(OutputColumns, "\t", '\n');
    var head := Join(OutputColumns, "\t");
    RowsAreLines(names, cols, xs);
    SplitLines(head, RowTexts(names, cols, xs), "");
    assert ExcelText(csvData) == head + "\n" + Concat(Line, RowTexts(names, cols, xs)) + "";
  }
}
