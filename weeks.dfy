/**
 * The rubric table of config/weeks.js: one configuration per graded week, each with
 * its rubric sections, optional point breakdowns, extra credit and validation rules,
 * and the three lookups over it.
 */
module Weeks {
  import opened Wrappers
  import opened JsString
  import opened Tables

  /** One `"label": points` line of a section's `pointBreakdown`. */
  datatype Level = Level(name: string, points: int)

  /** One entry of `gradingRubric`, keyed by `key` ("completion", "github", ...). */
  datatype RubricSection = RubricSection(
    key: string,
    points: int,
    description: string,
    pointBreakdown: Option<seq<Level>>,
    criteria: seq<string>)

  datatype ExtraCredit = ExtraCredit(points: int, description: string, criteria: seq<string>)

  datatype ForbiddenPattern = ForbiddenPattern(pattern: string, message: string)

  datatype ValidationRules = ValidationRules(
    requiredPatterns: seq<string>,
    forbiddenPatterns: seq<ForbiddenPattern>,
    requiredFunctionality: seq<string>)

  /** The rubric sections keep the order in which the object literal lists them. */
  datatype WeekConfig = WeekConfig(
    weekNumber: int,
    name: string,
    rubricDescription: string,
    totalPoints: int,
    gradingRubric: seq<RubricSection>,
    extraCredit: Option<ExtraCredit>,
    validationRules: Option<ValidationRules>,
    resubmissionAllowed: bool)

  /** A row of `getAvailableWeeksWithNames`. */
  datatype WeekSummary = WeekSummary(number: int, name: string, totalPoints: int)

  const Week3 := WeekConfig(
    3, "Bootstrap Project",
    "This assignment evaluates a Bootstrap website with requirements including multiple pages, navbar, tables, and forms.",
    80,
    [ RubricSection("completion", 30, "Implementation of all required Bootstrap components", None,
        ["Multiple pages created", "Bootstrap navbar implemented", "Tables with proper styling",
         "Forms with Bootstrap classes", "Responsive design"]),
      RubricSection("github", 25, "GitHub repository setup and organization", None,
        ["Repository properly created", "Files organized in logical structure", "README file included",
         "Commits show development progress"]),
      RubricSection("errors", 15, "Error-free functionality and code quality", None,
        ["No console errors", "All links work properly", "Valid HTML/CSS", "Bootstrap classes used correctly"]),
      RubricSection("video", 10, "Video explanation of project", None,
        ["Clear explanation of design choices", "Demonstration of all features",
         "Discussion of challenges faced", "Professional presentation"]) ],
    None, None, true)

  const Week7 := WeekConfig(
    7, "JS4 - ECMA Script",
    "This assignment focuses on JavaScript ECMA Script features including arrow functions, destructuring, and modern syntax.",
    400,
    [ RubricSection("completion", 160, "Implementation of ECMA Script features", None,
        ["Arrow functions used appropriately", "Destructuring assignments implemented",
         "Template literals utilized", "Let/const used instead of var", "Modern JavaScript syntax throughout"]),
      RubricSection("github", 140, "GitHub repository setup and organization", None,
        ["Repository properly structured", "Code is well-organized", "Commit history shows progress",
         "README with project description"]),
      RubricSection("errors", 70, "Error-free functionality", None,
        ["No syntax errors", "Code executes without issues", "Proper error handling", "Functions work as expected"]),
      RubricSection("video", 30, "Video explanation", None,
        ["Explanation of ECMA Script features used", "Code walkthrough", "Discussion of implementation choices"]) ],
    None, None, true)

  const Week9 := WeekConfig(
    9, "JavaScript Unit Final Coding Project - WAR Card Game",
    "Students create an automated version of the classic card game WAR using Object-Oriented Programming concepts. The game should use classes like Card, Deck, and Player, deal 26 cards to each player, automatically play through all rounds, track points, and declare a winner. Bonus points for unit testing with Mocha/Chai.",
    400,
    [ RubricSection("completion", 160, "Implementation of WAR card game with OOP concepts", None,
        ["Uses classes (Card, Deck, Player) or similar OOP structure",
         "Deals 26 cards to each player from 52-card deck", "Iterates through all rounds automatically",
         "Awards points to player with higher card", "Handles ties appropriately (zero points)",
         "Displays final score and declares winner", "Game runs automatically using console.log output"]),
      RubricSection("github", 140, "GitHub repository setup and code quality", None,
        ["Repository properly created and accessible", "Code is well-commented explaining functionality",
         "Includes .gitignore file with node_modules", "Clean, organized code structure",
         "Meaningful variable and function names"]),
      RubricSection("errors", 70, "Error-free functionality and proper implementation", None,
        ["Game runs without crashes or errors", "All 26 rounds play correctly", "Card dealing works properly",
         "Point tracking is accurate", "No logical errors in game flow"]),
      RubricSection("video", 30, "Video explanation and demonstration (max 5 minutes)", None,
        ["Shows game running from start to finish", "Explains how the code works",
         "Demonstrates understanding of OOP concepts used", "Clear screen share and voice explanation",
         "Highlights key portions of contributed code"]) ],
    Some(ExtraCredit(10, "Unit testing with Mocha and Chai",
      ["Includes at least one unit test", "Uses specified Mocha/Chai versions",
       "Test actually validates game functionality"])),
    None, true)

  const Week12 := WeekConfig(
    12, "API's and Fetch",
    "This assignment REQUIRES students to create a FUNCTIONAL CRUD application using REAL API calls (json-server or another API). Students MUST use fetch/axios with async/await to interact with an ACTUAL API endpoint. Hardcoded data arrays are NOT acceptable and will result in failure of the completion criteria.",
    400,
    [ RubricSection("completion", 160, "FUNCTIONAL CRUD application with REAL API integration",
        Some([Level("All CRUD operations working with real API", 160),
              Level("Most CRUD operations (3 of 4) with real API", 120),
              Level("Some CRUD operations (2 of 4) with real API", 80),
              Level("Minimal API integration (1 operation only)", 40),
              Level("No real API calls or only hardcoded data", 0)]),
        ["MUST use real fetch/axios calls to an actual API endpoint",
         "MUST NOT use hardcoded data arrays as primary data source",
         "Create (POST) functionality actually sends data to API", "Read (GET) functionality retrieves data from API",
         "Delete functionality removes data via API", "Update functionality (optional but recommended)",
         "Forms properly connected to POST requests", "Async/await or promises used correctly",
         "Data from API is displayed in the UI"]),
      RubricSection("github", 140, "GitHub repository setup and code organization",
        Some([Level("Complete, well-organized repository", 140),
              Level("Repository exists with most files", 100),
              Level("Repository exists but poorly organized", 70),
              Level("Repository missing or major issues", 0)]),
        ["Repository properly created and accessible", "All necessary files included", "File structure is logical",
         "Code is clean and commented", "README explains API setup and usage",
         "Commit history shows iterative development", ".gitignore excludes node_modules and sensitive data"]),
      RubricSection("errors", 70, "Code functionality and error handling",
        Some([Level("No errors, all features work", 70),
              Level("Minor errors, most features work", 50),
              Level("Major errors, some features work", 30),
              Level("Critical errors, barely functional", 10),
              Level("Code doesn't run or meet requirements", 0)]),
        ["Code executes without console errors", "All CRUD operations function correctly",
         "Proper error handling for failed API calls", "Try/catch blocks or .catch() for promises",
         "Graceful handling of network failures", "User feedback for operations (success/error messages)"]),
      RubricSection("video", 30, "Video demonstration of working application",
        Some([Level("Complete demonstration of all features", 30),
              Level("Partial demonstration", 15),
              Level("Video submitted but inadequate", 5),
              Level("No video", 0)]),
        ["Demonstrates all CRUD operations working", "Shows actual API calls in network tab",
         "Explains code implementation", "Discusses challenges and solutions", "Clear audio and screen recording"]) ],
    Some(ExtraCredit(10, "Implementation of UPDATE functionality",
      ["Full CRUD including UPDATE/PUT", "Edit forms that update existing entries",
       "Proper PUT/PATCH requests to API"])),
    Some(ValidationRules(
      ["fetch(", "async", "await", ".then("],
      [ForbiddenPattern("const.*=.*\\[.*{.*id:.*title:.*description:",
         "Hardcoded data array detected - not using real API")],
      ["API endpoint URL", "POST request", "DELETE request", "GET request"])),
    true)

  const Week17 := WeekConfig(
    17, "Final Coding Project",
    "This is the final project where students create a React application that connects to an API and includes CRUD operations.",
    800,
    [ RubricSection("completion", 320, "Implementation of all project requirements",
        Some([Level("All requirements attempted", 320),
              Level("Did not attempt some (1 or 2) requirements", 220),
              Level("Did not attempt most (3 or more) requirements", 110),
              Level("No Code Attempted or No Code Submitted", 0)]),
        ["All requirements have been attempted", "React application created", "API connection established",
         "CRUD operations implemented", "All specified functionality working"]),
      RubricSection("github", 280, "GitHub repository setup and accessibility",
        Some([Level("URL provided, project can be cloned and run", 280),
              Level("URL provided, but missing full file structure", 180),
              Level("URL provided, but code is not complete", 80),
              Level("URL not provided or points to non-existent/empty repository", 0)]),
        ["GitHub URL provided and accessible", "Project can be successfully cloned",
         "Project can be run without issues", "Complete file structure present", "Repository is properly organized"]),
      RubricSection("errors", 140, "Code functionality and error handling",
        Some([Level("Code works as required. No errors", 140),
              Level("Minor errors: small errors or some features don't work", 70),
              Level("Major errors: code not implemented correctly or requirements missing", 35),
              Level("No working project", 0)]),
        ["Code executes without errors", "All features work as required", "No broken functionality",
         "Proper error handling implemented", "Clean execution"]),
      RubricSection("video", 60, "Video explanation and demonstration",
        Some([Level("Video showcases all requirements", 60),
              Level("Video partially showcases requirements", 30),
              Level("Video provided but doesn't showcase working project", 15),
              Level("No video", 0)]),
        ["Video demonstrates all project requirements", "Clear explanation of functionality",
         "Shows running code in action", "Professional presentation", "Complete project walkthrough"]) ],
    None, None, true)

  /**
   * The layout of `WEEKS_CONFIG`: its keys in the order `Object.keys` enumerates them
   * (integer-like keys come out ascending), each with the configuration stored under it.
   * The lookups below are stated for whatever configurations fill the five places.
   */
  function Table(w3: WeekConfig, w7: WeekConfig, w9: WeekConfig, w12: WeekConfig, w17: WeekConfig)
    : seq<(nat, WeekConfig)>
  {
    [(3, w3), (7, w7), (9, w9), (12, w12), (17, w17)]
  }

  const WeeksConfig: seq<(nat, WeekConfig)> := Table(Week3, Week7, Week9, Week12, Week17)

  /** The tail of the "configuration not found" message: the known keys, comma-separated. */
  function AvailableList(table: seq<(nat, WeekConfig)>): string {
    "Available weeks: " + KeyList(Keys(table))
  }

  /** `getWeekConfig` over a table: the entry stored under `n`, or the error naming the known weeks. */
  function GetWeekConfigIn(table: seq<(nat, WeekConfig)>, n: int): (r: Result<WeekConfig>)
    ensures r.Ok? <==> n in Keys(table)
    ensures r.Ok? ==> exists k :: 0 <= k < |table| && table[k] == (n as nat, r.value)
    ensures r.Err? ==> StartsWith(r.message, "Week " + IntToString(n) + " ")
    ensures r.Err? ==> EndsWith(r.message, AvailableList(table))
  {
    match LookupKey(table, n)
    case Some(c) => Ok(c)
    case None =>
      var head := "Week " + IntToString(n) + " ";
      var msg := head + "configuration not found. " + AvailableList(table);
      StartsWithSelf(head, "configuration not found. " + AvailableList(table));
      EndsWithSelf(head + "configuration not found. ", AvailableList(table));
      assert msg == head + ("configuration not found. " + AvailableList(table));
      Err(msg)
  }

  function GetWeekConfig(n: int): Result<WeekConfig> {
    GetWeekConfigIn(WeeksConfig, n)
  }

  /** Exactly the keys 3, 7, 9, 12 and 17 are found, each giving the configuration in its place. */
  lemma TableLookup(w3: WeekConfig, w7: WeekConfig, w9: WeekConfig, w12: WeekConfig, w17: WeekConfig, n: int)
    ensures GetWeekConfigIn(Table(w3, w7, w9, w12, w17), n).Ok? <==> n in {3, 7, 9, 12, 17}
    ensures n == 3 ==> GetWeekConfigIn(Table(w3, w7, w9, w12, w17), n) == Ok(w3)
    ensures n == 7 ==> GetWeekConfigIn(Table(w3, w7, w9, w12, w17), n) == Ok(w7)
    ensures n == 9 ==> GetWeekConfigIn(Table(w3, w7, w9, w12, w17), n) == Ok(w9)
    ensures n == 12 ==> GetWeekConfigIn(Table(w3, w7, w9, w12, w17), n) == Ok(w12)
    ensures n == 17 ==> GetWeekConfigIn(Table(w3, w7, w9, w12, w17), n) == Ok(w17)
  {
    assert Keys(Table(w3, w7, w9, w12, w17)) == [3, 7, 9, 12, 17];
  }

  lemma TableKeys(w3: WeekConfig, w7: WeekConfig, w9: WeekConfig, w12: WeekConfig, w17: WeekConfig)
    ensures Keys(Table(w3, w7, w9, w12, w17)) == [3, 7, 9, 12, 17]
  {
  }

  lemma KeysText()
    ensures RenderAll([3, 7, 9, 12, 17]) == ["3", "7", "9", "12", "17"]
  {
    var r := RenderAll([3, 7, 9, 12, 17]);
    assert r[0] == "3" && r[1] == "7" && r[2] == "9";
    assert NatToString(1) == "1";
    assert r[3] == NatToString(1) + [DigitChar(2)] == "12";
    assert r[4] == NatToString(1) + [DigitChar(7)] == "17";
  }

  /** The error text lists the known weeks as "3, 7, 9, 12, 17". */
  lemma TableAvailableList(w3: WeekConfig, w7: WeekConfig, w9: WeekConfig, w12: WeekConfig, w17: WeekConfig)
    ensures AvailableList(Table(w3, w7, w9, w12, w17)) == "Available weeks: 3, 7, 9, 12, 17"
  {
    TableKeys(w3, w7, w9, w12, w17);
    KeysText();
    var parts: seq<string> := ["3", "7", "9", "12", "17"];
    assert parts[1..][1..][1..][1..] == ["17"];
    assert parts[1..][1..][1..] == ["12", "17"];
    assert parts[1..][1..] == ["9", "12", "17"];
    assert parts[1..] == ["7", "9", "12", "17"];
  }

  function Id(n: int): int { n }

  /** `getAvailableWeeks` over a table: the keys parsed back to numbers and sorted ascending. */
  function AvailableWeeksIn(table: seq<(nat, WeekConfig)>): (r: seq<int>)
    ensures SortedBy(r, Id)
  {
    SortBy(ParseAll(RenderAll(Keys(table))), Id)
  }

  /** The available weeks are the table's keys, each once, rearranged. */
  lemma AvailableWeeksArePermutation(table: seq<(nat, WeekConfig)>)
    ensures multiset(AvailableWeeksIn(table)) == multiset(seq(|table|, k requires 0 <= k < |table| => table[k].0 as int))
  {
    ParseRenderAll(Keys(table));
    assert ParseAll(RenderAll(Keys(table))) == seq(|table|, k requires 0 <= k < |table| => table[k].0 as int);
  }

  function AvailableWeeks(): seq<int> {
    AvailableWeeksIn(WeeksConfig)
  }

  /** The available weeks are exactly 3, 7, 9, 12 and 17, in that order. */
  lemma TableAvailableWeeks(w3: WeekConfig, w7: WeekConfig, w9: WeekConfig, w12: WeekConfig, w17: WeekConfig)
    ensures AvailableWeeksIn(Table(w3, w7, w9, w12, w17)) == [3, 7, 9, 12, 17]
  {
    TableKeys(w3, w7, w9, w12, w17);
    var keys: seq<nat> := [3, 7, 9, 12, 17];
    ParseRenderAll(keys);
    var parsed := ParseAll(RenderAll(keys));
    assert parsed == [3, 7, 9, 12, 17];
    SortBySorted(parsed, Id);
  }

  function Summarize(c: WeekConfig): WeekSummary {
    WeekSummary(c.weekNumber, c.name, c.totalPoints)
  }

  function SummarizeAll(cs: seq<WeekConfig>): (r: seq<WeekSummary>)
    ensures |r| == |cs| && forall k :: 0 <= k < |cs| ==> r[k] == Summarize(cs[k])
  {
    seq(|cs|, k requires 0 <= k < |cs| => Summarize(cs[k]))
  }

  function SummaryNumber(s: WeekSummary): int { s.number }

  /** `getAvailableWeeksWithNames` over a table: a summary per configuration, ordered by week number. */
  function AvailableWeeksWithNamesIn(table: seq<(nat, WeekConfig)>): (r: seq<WeekSummary>)
    ensures SortedBy(r, SummaryNumber)
    ensures multiset(r) == multiset(SummarizeAll(Values(table)))
  {
    SortBy(SummarizeAll(Values(table)), SummaryNumber)
  }

  function AvailableWeeksWithNames(): seq<WeekSummary> {
    AvailableWeeksWithNamesIn(WeeksConfig)
  }

  /**
   * When every configuration carries its own key as week number, the summaries come out in
   * key order, with number, name and total points copied from each configuration.
   */
  lemma TableWeeksWithNames(w3: WeekConfig, w7: WeekConfig, w9: WeekConfig, w12: WeekConfig, w17: WeekConfig)
    requires w3.weekNumber == 3 && w7.weekNumber == 7 && w9.weekNumber == 9
    requires w12.weekNumber == 12 && w17.weekNumber == 17
    ensures AvailableWeeksWithNamesIn(Table(w3, w7, w9, w12, w17)) ==
      [ WeekSummary(3, w3.name, w3.totalPoints), WeekSummary(7, w7.name, w7.totalPoints),
        WeekSummary(9, w9.name, w9.totalPoints), WeekSummary(12, w12.name, w12.totalPoints),
        WeekSummary(17, w17.name, w17.totalPoints) ]
  {
    var s := SummarizeAll(Values(Table(w3, w7, w9, w12, w17)));
    assert s == [Summarize(w3), Summarize(w7), Summarize(w9), Summarize(w12), Summarize(w17)];
    SortBySorted(s, SummaryNumber);
  }

  /** `points` of the first `n` sections, added up. */
  function PointsUpTo(secs: seq<RubricSection>, n: nat): int
    requires n <= |secs|
  {
    if n == 0 then 0 else PointsUpTo(secs, n - 1) + secs[n - 1].points
  }

  /** The sum of a rubric's section points. */
  function SectionPoints(secs: seq<RubricSection>): int {
    PointsUpTo(secs, |secs|)
  }

  /**
   * A breakdown, where present, lists its levels from exactly the section's points down
   * to 0, with every level in between: its maximum is the points and its minimum is 0.
   */
  predicate BreakdownFits(s: RubricSection) {
    s.pointBreakdown.Some? ==>
      var ls := s.pointBreakdown.value;
      && ls != []
      && ls[0].points == s.points
      && ls[|ls| - 1].points == 0
      && forall k :: 0 <= k < |ls| ==> 0 <= ls[k].points <= s.points
  }

  /** The data invariants of one table entry. */
  predicate WellFormed(key: nat, c: WeekConfig) {
    && c.weekNumber == key
    && SectionPoints(c.gradingRubric) == c.totalPoints
    && forall k :: 0 <= k < |c.gradingRubric| ==> BreakdownFits(c.gradingRubric[k])
  }

  /** A four-section rubric adds up to the sum of its four sections' points. */
  lemma FourSections(c: WeekConfig)
    requires |c.gradingRubric| == 4
    requires forall k :: 0 <= k < 4 ==> BreakdownFits(c.gradingRubric[k])
    ensures SectionPoints(c.gradingRubric) == c.gradingRubric[0].points + c.gradingRubric[1].points
      + c.gradingRubric[2].points + c.gradingRubric[3].points
    ensures c.weekNumber >= 0 && c.totalPoints == SectionPoints(c.gradingRubric) ==> WellFormed(c.weekNumber, c)
  {
    var r := c.gradingRubric;
    assert PointsUpTo(r, 1) == r[0].points;
    assert PointsUpTo(r, 2) == r[0].points + r[1].points;
    assert PointsUpTo(r, 3) == PointsUpTo(r, 2) + r[2].points;
    assert PointsUpTo(r, 4) == PointsUpTo(r, 3) + r[3].points;
  }

  lemma Week3WellFormed() ensures WellFormed(3, Week3) {
    FourSections(Week3);
  }

  lemma Week7WellFormed() ensures WellFormed(7, Week7) {
    FourSections(Week7);
  }

  lemma Week9WellFormed() ensures WellFormed(9, Week9) {
    FourSections(Week9);
  }

  lemma Week12WellFormed() ensures WellFormed(12, Week12) {
    FourSections(Week12);
  }

  lemma Week17WellFormed() ensures WellFormed(17, Week17) {
    FourSections(Week17);
  }
}
