/**
 * The learning-platform navigation table of src/config/promineo-weeks.js: for each graded
 * week, the sidebar and project labels to click and the text patterns that identify them,
 * next to a reference to the week's grading configuration file.
 */
module PromineoWeeks {
  import opened Wrappers
  import opened JsString
  import opened Tables
  import Weeks

  /**
   * The week's grading configuration is loaded from a JSON file that is not part of this
   * model; an entry keeps only the file it names.
   */
  datatype ConfigFile = ConfigFile(path: string)

  datatype PromineoWeek = PromineoWeek(
    aiGraderConfig: ConfigFile,
    sidebarSelector: string,
    projectSelector: string,
    sidebarTextPatterns: seq<string>,
    projectTextPatterns: seq<string>)

  /** `PROMINEO_WEEK_MAPPING`, its integer keys in ascending enumeration order. */
  const PromineoWeekMapping: seq<(nat, PromineoWeek)> := [
    (3, PromineoWeek(ConfigFile("../../config/weeks/week3.json"), "Week 3: Bootstrap", "Bootstrap Coding Project",
        ["Week 3: Bootstrap", "Bootstrap", "Week 3"],
        ["Bootstrap Coding Project", "Bootstrap Project", "Coding Project"])),
    (7, PromineoWeek(ConfigFile("../../config/weeks/week7.json"), "Week 7: JS4", "JS4 Coding Assignment",
        ["Week 7", "JS4", "ECMA"], ["JS4", "Coding Assignment", "JavaScript"])),
    (9, PromineoWeek(ConfigFile("../../config/weeks/week9.json"), "Week 9: JS6", "DevTools Coding Project",
        ["Week 9", "JS6", "DevTools"], ["DevTools", "Debugging", "Coding Project"])),
    (12, PromineoWeek(ConfigFile("../../config/weeks/week12.json"), "Week 12: API", "API Coding Project",
        ["Week 12", "API", "Fetch"], ["API", "Fetch", "Coding Project"])),
    (17, PromineoWeek(ConfigFile("../../config/weeks/week17.json"), "Week 17: Final", "Final Coding Project",
        ["Week 17", "Final", "React"], ["Final", "React", "Coding Project"]))
  ]

  /** `getPromineoWeekConfig`: the entry for week `n`, or the "not configured" error. */
  function GetPromineoWeekConfig(n: int): (r: Result<PromineoWeek>)
    ensures r.Ok? <==> n in {3, 7, 9, 12, 17}
    ensures r.Ok? ==> exists k :: 0 <= k < |PromineoWeekMapping| && PromineoWeekMapping[k] == (n as nat, r.value)
    ensures r.Err? ==> r.message == "Week " + IntToString(n) + " not configured for Promineo LMS"
  {
    assert Keys(PromineoWeekMapping) == [3, 7, 9, 12, 17];
    match LookupKey(PromineoWeekMapping, n)
    case Some(w) => Ok(w)
    case None => Err("Week " + IntToString(n) + " not configured for Promineo LMS")
  }

  /** `getAvailablePromineoWeeks`: the keys parsed back to numbers, in enumeration order. */
  function AvailablePromineoWeeks(): (r: seq<int>)
    ensures r == [3, 7, 9, 12, 17]
  {
    var keys := Keys(PromineoWeekMapping);
    assert keys == [3, 7, 9, 12, 17];
    ParseRenderAll(keys);
    ParseAll(RenderAll(keys))
  }

  /** Every entry has at least one sidebar pattern and at least one project pattern. */
  lemma PatternsNonEmpty()
    ensures forall k :: 0 <= k < |PromineoWeekMapping| ==>
      PromineoWeekMapping[k].1.sidebarTextPatterns != [] && PromineoWeekMapping[k].1.projectTextPatterns != []
  {
  }

  /** The navigation table covers exactly the weeks of the rubric table, in the same order. */
  lemma SameWeeksAsRubric(w3: Weeks.WeekConfig, w7: Weeks.WeekConfig, w9: Weeks.WeekConfig,
                          w12: Weeks.WeekConfig, w17: Weeks.WeekConfig)
    ensures Keys(PromineoWeekMapping) == Keys(Weeks.Table(w3, w7, w9, w12, w17))
  {
    Weeks.TableKeys(w3, w7, w9, w12, w17);
  }
}
