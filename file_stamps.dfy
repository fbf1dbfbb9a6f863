/**
 * The `YYYY-MM-DDT` date stamp in the names of graded reports: src/index.js
 * names each report `<name>-week<n>-<ISO time>.html`.  The monthly report
 * (generate-monthly-report.js) and the remarks updater
 * (output/updateExcelWithRemarks.js) find it with a regular expression and
 * read the leftmost match.
 */
module FileStamps {
  import opened Wrappers
  import opened Sequences
  import opened JsString

  /**
   * `\d{4}-\d{2}-\d{2}T` matches at `i`; when `year` is given, the four year
   * digits must be exactly that text (the remarks updater's `2025-`).
   */
  predicate StampAt(s: string, i: nat, year: Option<string>) {
    i + 11 <= |s| && IsDigits(s[i..i + 4]) && s[i + 4] == '-' && IsDigits(s[i + 5..i + 7])
    && s[i + 7] == '-' && IsDigits(s[i + 8..i + 10]) && s[i + 10] == 'T'
    && (year.Some? ==> s[i..i + 4] == year.value)
  }

  /** The leftmost index at or after `from` where a stamp starts. */
  function FirstStamp(s: string, from: nat, year: Option<string>): (r: Option<nat>)
    requires from <= |s|
    ensures r.Some? ==> from <= r.value && r.value + 11 <= |s|
    decreases |s| - from
  {
    if StampAt(s, from, year) then Some(from)
    else if from == |s| then None
    else FirstStamp(s, from + 1, year)
  }

  /** The index found is a stamp with none before it; when none is found there is none at all. */
  lemma {:induction false} FirstStampFacts(s: string, from: nat, year: Option<string>)
    requires from <= |s|
    ensures var r := FirstStamp(s, from, year);
      (r.Some? ==> StampAt(s, r.value, year) && forall j :: from <= j < r.value ==> !StampAt(s, j, year)) &&
      (r.None? ==> forall j :: from <= j ==> !StampAt(s, j, year))
    decreases |s| - from
  {
    if !StampAt(s, from, year) && from < |s| {
      FirstStampFacts(s, from + 1, year);
      var r := FirstStamp(s, from + 1, year);
      assert FirstStamp(s, from, year) == r;
      if r.Some? {
        forall j | from <= j < r.value ensures !StampAt(s, j, year) {
          if j > from {
            assert from + 1 <= j < r.value;
          }
        }
      } else {
        forall j | from <= j ensures !StampAt(s, j, year) {
          if j > from {
            assert from + 1 <= j;
          }
        }
      }
    }
  }

  /** A stamp starts at `p` and none starts before it. */
  predicate IsFirstStamp(s: string, p: nat) {
    StampAt(s, p, None) && forall j: nat :: j < p ==> !StampAt(s, j, None)
  }

  /** A stamp with no stamp of any year before it is the first one found. */
  lemma FirstStampIs(s: string, p: nat, year: Option<string>)
    requires StampAt(s, p, year) && IsFirstStamp(s, p)
    ensures FirstStamp(s, 0, year) == Some(p)
  {
    FirstStampFacts(s, 0, year);
    var f := FirstStamp(s, 0, year);
    assert f.Some?;
    assert f.value <= p;
    assert StampAt(s, f.value, None);
    assert f.value >= p;
  }

  /** The capture groups of the stamp at `i`: year, month and day, as `parseInt` reads them. */
  function StampYear(s: string, i: nat): nat
    requires StampAt(s, i, None)
  {
    ParseDigits(s[i..i + 4])
  }

  function StampMonth(s: string, i: nat): nat
    requires StampAt(s, i, None)
  {
    ParseDigits(s[i + 5..i + 7])
  }

  function StampDay(s: string, i: nat): nat
    requires StampAt(s, i, None)
  {
    ParseDigits(s[i + 8..i + 10])
  }

  /** A text with no ASCII digit. */
  predicate NoDigits(s: string) {
    forall k :: 0 <= k < |s| ==> !IsAsciiDigit(s[k])
  }

  /** No stamp starts in a digit-free text, nor in a run of at most three digits ended by a hyphen. */
  lemma NoStampBefore(s: string, a: string, w: string, j: nat)
    requires NoDigits(a) && |w| <= 3 && |a| + |w| < |s| && s[..|a|] == a && s[|a|..|a| + |w|] == w
    requires s[|a| + |w|] == '-' && j <= |a| + |w|
    ensures !StampAt(s, j, None)
  {
    if j + 11 <= |s| {
      var u := if j < |a| then 0 else |a| + |w| - j;
      if j < |a| {
        assert s[j] == a[j];
      } else {
        assert s[j + u] == '-';
      }
      assert u < 4 && !IsAsciiDigit(s[j + u]);
      assert s[j..j + 4][u] == s[j + u];
    }
  }

  /** An ISO date followed by `T` at `p` is a stamp, and its groups are the year and the month. */
  lemma StampOfDate(s: string, p: nat, year: string, month: string, day: string, rest: string)
    requires |year| == 4 && |month| == 2 && |day| == 2 && IsDigits(year) && IsDigits(month) && IsDigits(day)
    requires p <= |s| && s[p..] == year + ("-" + (month + ("-" + (day + ("T" + rest)))))
    ensures StampAt(s, p, None) && s[p..p + 4] == year && s[p + 5..p + 7] == month && s[p + 8..p + 10] == day
  {
    var t3 := day + ("T" + rest);
    var t2 := month + ("-" + t3);
    var t1 := year + ("-" + t2);
    Halves(year, "-" + t2);
    Halves(month, "-" + t3);
    Halves(day, "T" + rest);
    assert s[p..p + 4] == t1[..4] == year;
    assert s[p + 4] == t1[4] == '-';
    assert s[p + 5..] == t2;
    assert s[p + 5..p + 7] == t2[..2] == month;
    assert s[p + 7] == t2[2] == '-';
    assert s[p + 8..] == t3;
    assert s[p + 8..p + 10] == t3[..2] == day;
    assert s[p + 10] == t3[2] == 'T';
  }

  /** In `<name>-week<n>-<ISO time>` the first stamp is the time's. */
  lemma ReportNameStamp(s: string, a: string, w: string, year: string, month: string, day: string, rest: string)
    requires NoDigits(a) && 1 <= |w| <= 3
    requires |year| == 4 && |month| == 2 && |day| == 2 && IsDigits(year) && IsDigits(month) && IsDigits(day)
    requires s == a + w + "-" + year + "-" + month + "-" + day + "T" + rest
    ensures var p := |a| + |w| + 1;
      IsFirstStamp(s, p) && s[p..p + 4] == year && s[p + 5..p + 7] == month && s[p + 8..p + 10] == day
  {
    var head := a + w + "-";
    var p := |head|;
    var stamp := year + ("-" + (month + ("-" + (day + ("T" + rest)))));
    assert s == head + stamp;
    Halves(head, stamp);
    Halves(a, w + "-");
    Halves(w, "-");
    assert s[..|a|] == a && s[|a|..|a| + |w|] == w && s[|a| + |w|] == '-';
    StampOfDate(s, p, year, month, day, rest);
    forall j: nat | j < p ensures !StampAt(s, j, None) {
      NoStampBefore(s, a, w, j);
    }
  }
}
