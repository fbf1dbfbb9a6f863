// The two texts sent to the AI for one submission (src/services/ai.js): the
// user prompt built by `constructWeekSpecificPrompt`, and the system prompt of
// `getWeekSpecificSystemPrompt`.
module AiPrompt {
  import opened Wrappers
  import opened Sequences
  import opened JsString
  import opened Weeks
  import opened AiValidate

  /** `s.charAt(0).toUpperCase() + s.slice(1)`. */
  function Capitalize(s: string): (r: string)
    ensures |r| == |s|
    ensures |s| > 0 ==> r[0] == UpperAscii(s[0]) && r[1..] == s[1..]
  {
    if s == [] then "" else [UpperAscii(s[0])] + s[1..]
  }

  function YesNo(b: bool): string {
    if b then "YES ✅" else "NO ❌"
  }

  /** One `- **label:** YES ✅` / `NO ❌` line of the code-analysis block. */
  function Flag(name: string, b: bool): string {
    "- **" + name + ":** " + YesNo(b) + "\n"
  }

  /**
   * The analysis object as the WAR block reads it: a week-9 analysis as is;
   * any other object has none of these fields, and an absent field reads as false.
   */
  function WarView(a: CodeAnalysis): WarChecks {
    if a.WarAnalysis? then a.war else WarChecks(false, false, false, false, false, false, false, false, false)
  }

  /** The analysis object as the API block reads it (absent fields read as false). */
  function ApiView(a: CodeAnalysis): ApiChecks {
    if a.ApiAnalysis? then a.api else ApiChecks(false, false, false, false, false, false, false, [], false)
  }

  function WarClassLines(c: WarChecks): string {
    "\n## CODE ANALYSIS - WAR CARD GAME (Week 9):\n### Object-Oriented Programming Check:\n"
    + Flag("Card Class Found", c.hasCardClass) + Flag("Deck Class Found", c.hasDeckClass)
    + Flag("Player Class Found", c.hasPlayerClass) + Flag("Uses OOP Concepts", c.usesOOP)
  }

  function WarGameLines(c: WarChecks): string {
    "\n### Game Implementation Check:\n"
    + Flag("Deals 26 Cards", c.deals26Cards) + Flag("Plays All Rounds", c.playsAllRounds)
    + Flag("Has Point System", c.hasPointSystem) + Flag("Declares Winner", c.declaresWinner)
  }

  function WarBonusLines(c: WarChecks): string {
    "\n### Bonus:\n- **Unit Tests Present:** " + (if c.hasUnitTests then "YES ✅ (+10 points)" else "NO") + "\n"
  }

  function WarBlock(c: WarChecks): string {
    WarClassLines(c) + WarGameLines(c) + WarBonusLines(c)
  }

  const Critical := "### ⚠️ CRITICAL: No real API calls detected. Maximum Completion score: 40/160 points."

  function ApiCallLines(c: ApiChecks): string {
    "\n## CODE ANALYSIS - API IMPLEMENTATION (Week 12):\n### API Integration Check:\n"
    + "- **Real API Calls Found:** " + (if c.hasRealFetch then "YES ✅" else "NO ❌ - CRITICAL ISSUE") + "\n"
    + Flag("Async/Await Used", c.hasAsyncAwait) + Flag("Error Handling", c.hasErrorHandling)
  }

  function ApiCrudLines(c: ApiChecks): string {
    "\n### CRUD Operations Check:\n"
    + Flag("GET/READ", c.hasGET) + Flag("POST/CREATE", c.hasPOST)
    + Flag("DELETE", c.hasDELETE) + Flag("Has Forms", c.hasFormElements)
  }

  /** The warning slot of the API block: the warning when no real call was found, and nothing otherwise. */
  function CriticalLine(c: ApiChecks): (r: string)
    ensures r == Critical <==> !c.hasRealFetch
    ensures r == "" <==> c.hasRealFetch
  {
    if !c.hasRealFetch then Critical else ""
  }

  function ApiBlock(c: ApiChecks): string {
    ApiCallLines(c) + ApiCrudLines(c) + "\n" + CriticalLine(c) + "\n"
  }

  /** The week-specific block: present only when the matching analysis object was passed. */
  function AnalysisBlock(vt: ValidationType, analysis: Option<CodeAnalysis>): string {
    if vt == WarGame && analysis.Some? then WarBlock(WarView(analysis.value))
    else if vt == Api && analysis.Some? then ApiBlock(ApiView(analysis.value))
    else ""
  }

  /** The first two lines: who submitted, and for which assignment. */
  function StudentLines(studentName: string, studentEmail: string, cfg: WeekConfig): string {
    "\nStudent: " + studentName + " (" + studentEmail + ")\nAssignment: " + cfg.name
    + " (Week " + IntToString(cfg.weekNumber) + ")\n"
  }

  /** The rubric title and its total. */
  function RubricTitle(cfg: WeekConfig): string {
    "\n# GRADING RUBRIC - " + cfg.name + "\n**TOTAL POINTS: " + IntToString(cfg.totalPoints) + "**\n"
  }

  function Head(studentName: string, studentEmail: string, cfg: WeekConfig): string {
    StudentLines(studentName, studentEmail, cfg) + RubricTitle(cfg)
  }

  /** The heading line of a section: its capitalised key and its maximum. */
  function SectionHeading(s: RubricSection): string {
    "\n## " + Capitalize(s.key) + " Section: " + IntToString(s.points) + " points maximum\n"
  }

  function SectionHeader(s: RubricSection): string {
    SectionHeading(s) + "**Description:** " + s.description + "\n"
  }

  function LevelLine(l: Level): string {
    "- " + l.name + ": " + IntToString(l.points) + " points\n"
  }

  /** The breakdown lines, in the order the breakdown lists its levels. */
  function LevelsText(levels: seq<Level>): string {
    Concat(LevelLine, levels)
  }

  function BreakdownText(b: Option<seq<Level>>): string {
    if b.Some? then "**Point Breakdown:**\n" + LevelsText(b.value) else ""
  }

  function Bullets(criteria: seq<string>): (r: seq<string>)
    ensures |r| == |criteria|
    ensures forall k :: 0 <= k < |r| ==> r[k] == "- " + criteria[k]
  {
    seq(|criteria|, k requires 0 <= k < |criteria| => "- " + criteria[k])
  }

  /** `criteria.map(c => "- " + c).join("\n")`. */
  function CriteriaText(criteria: seq<string>): string {
    Join(Bullets(criteria), "\n")
  }

  function SectionText(s: RubricSection): string {
    SectionHeader(s) + BreakdownText(s.pointBreakdown) + "**Criteria:**\n" + CriteriaText(s.criteria) + "\n"
  }

  /** The rubric part: every section, in rubric order. */
  function SectionsText(secs: seq<RubricSection>): string {
    Concat(SectionText, secs)
  }

  const Instruction := " requirements above. Use the code analysis results to inform your grading but verify against the actual code.\n"

  function TranscriptText(hasYoutubeVideo: bool, transcript: string): string {
    if hasYoutubeVideo then transcript else "No video submitted"
  }

  /** The repository text, between code fences. */
  function Fenced(content: string): string {
    "```\n" + content + "\n```"
  }

  function RepoBlock(content: string): string {
    "\n## GitHub Repository Content:\n" + Fenced(content) + "\n"
  }

  function TranscriptBlock(hasYoutubeVideo: bool, transcript: string): string {
    "\n## YouTube Transcript:\n" + TranscriptText(hasYoutubeVideo, transcript) + "\n"
  }

  function InstructionBlock(weekNumber: int): string {
    "\n# GRADING INSTRUCTION:\nEvaluate based on the Week " + IntToString(weekNumber) + Instruction
  }

  function Tail(weekNumber: int, content: string, transcript: string, hasYoutubeVideo: bool): string {
    RepoBlock(content) + TranscriptBlock(hasYoutubeVideo, transcript) + InstructionBlock(weekNumber)
  }

  /** The whole user prompt. */
  function PromptText(studentName: string, studentEmail: string, cfg: WeekConfig, content: string,
                      transcript: string, hasYoutubeVideo: bool, analysis: Option<CodeAnalysis>,
                      vt: ValidationType): string
  {
    Head(studentName, studentEmail, cfg) + AnalysisBlock(vt, analysis) + SectionsText(cfg.gradingRubric)
    + Tail(cfg.weekNumber, content, transcript, hasYoutubeVideo)
  }

  /** The inner `forEach` over a point breakdown. */
  method AppendLevels(prompt0: string, levels: seq<Level>) returns (prompt: string)
    ensures prompt == prompt0 + LevelsText(levels)
  {
    prompt := prompt0;
    var j := 0;
    while j < |levels|
      invariant 0 <= j <= |levels|
      invariant prompt == prompt0 + LevelsText(levels[..j])
    {
      assert levels[..j + 1][..j] == levels[..j];
      var line := LevelLine(levels[j]);
      Assoc(prompt0, LevelsText(levels[..j]), line);
      prompt := prompt + line;
      j := j + 1;
    }
    assert levels[..j] == levels;
  }

  /** The text one turn of the outer `forEach` appends for a section. */
  method AppendSection(s: RubricSection) returns (text: string)
    ensures text == SectionText(s)
  {
    text := SectionHeader(s);
    if s.pointBreakdown.Some? {
      text := text + "**Point Breakdown:**\n";
      text := AppendLevels(text, s.pointBreakdown.value);
      Assoc(SectionHeader(s), "**Point Breakdown:**\n", LevelsText(s.pointBreakdown.value));
    }
    text := text + "**Criteria:**\n" + CriteriaText(s.criteria) + "\n";
  }

  /** The outer `forEach` over the rubric sections. */
  method AppendSections(prompt0: string, secs: seq<RubricSection>) returns (prompt: string)
    ensures prompt == prompt0 + SectionsText(secs)
  {
    prompt := prompt0;
    var i := 0;
    while i < |secs|
      invariant 0 <= i <= |secs|
      invariant prompt == prompt0 + SectionsText(secs[..i])
    {
      var s := secs[i];
      assert secs[..i + 1][..i] == secs[..i];
      var text := AppendSection(s);
      Assoc(prompt0, SectionsText(secs[..i]), text);
      prompt := prompt + text;
      i := i + 1;
    }
    assert secs[..i] == secs;
  }

  /** `constructWeekSpecificPrompt`. */
  method ConstructWeekSpecificPrompt(studentName: string, studentEmail: string, cfg: WeekConfig,
                                     content: string, transcript: string, hasYoutubeVideo: bool,
                                     analysis: Option<CodeAnalysis>, vt: ValidationType)
    returns (prompt: string)
    ensures prompt == PromptText(studentName, studentEmail, cfg, content, transcript, hasYoutubeVideo, analysis, vt)
  {
    prompt := Head(studentName, studentEmail, cfg);
    prompt := prompt + AnalysisBlock(vt, analysis);
    prompt := AppendSections(prompt, cfg.gradingRubric);
    prompt := prompt + Tail(cfg.weekNumber, content, transcript, hasYoutubeVideo);
  }

  // ---- Properties of the user prompt ----

  lemma PrefixOfParts(a: string, b: string, c: string, d: string)
    ensures StartsWith(a + b + c + d, a)
  {
    assert a + b + c + d == a + (b + c + d);
    StartsWithSelf(a, b + c + d);
  }

  /** The prompt opens with the student, their e-mail and the assignment it is graded against. */
  lemma PromptNamesStudent(studentName: string, studentEmail: string, cfg: WeekConfig, content: string,
                           transcript: string, hasYoutubeVideo: bool, analysis: Option<CodeAnalysis>,
                           vt: ValidationType)
    ensures StartsWith(PromptText(studentName, studentEmail, cfg, content, transcript, hasYoutubeVideo, analysis, vt),
                       StudentLines(studentName, studentEmail, cfg))
  {
    var h := Head(studentName, studentEmail, cfg);
    PrefixOfParts(h, AnalysisBlock(vt, analysis), SectionsText(cfg.gradingRubric),
                  Tail(cfg.weekNumber, content, transcript, hasYoutubeVideo));
    StartsWithSelf(StudentLines(studentName, studentEmail, cfg), RubricTitle(cfg));
    StartsWithTrans(PromptText(studentName, studentEmail, cfg, content, transcript, hasYoutubeVideo, analysis, vt),
                    h, StudentLines(studentName, studentEmail, cfg));
  }

  /** The repository text appears verbatim, between code fences. */
  lemma PromptQuotesContent(studentName: string, studentEmail: string, cfg: WeekConfig, content: string,
                            transcript: string, hasYoutubeVideo: bool, analysis: Option<CodeAnalysis>,
                            vt: ValidationType)
    ensures Contains(PromptText(studentName, studentEmail, cfg, content, transcript, hasYoutubeVideo, analysis, vt),
                     "```\n" + content + "\n```")
  {
    var rest := TranscriptBlock(hasYoutubeVideo, transcript) + InstructionBlock(cfg.weekNumber);
    ContainsMiddle("\n## GitHub Repository Content:\n", Fenced(content), "\n");
    ContainsLeft(RepoBlock(content), Fenced(content), TranscriptBlock(hasYoutubeVideo, transcript));
    ContainsLeft(RepoBlock(content) + TranscriptBlock(hasYoutubeVideo, transcript), Fenced(content),
                 InstructionBlock(cfg.weekNumber));
    ContainsRight(Head(studentName, studentEmail, cfg) + AnalysisBlock(vt, analysis) + SectionsText(cfg.gradingRubric),
                  Tail(cfg.weekNumber, content, transcript, hasYoutubeVideo), Fenced(content));
  }

  /** The transcript section holds the transcript when a video was submitted, and says there is none otherwise. */
  lemma PromptTranscript(studentName: string, studentEmail: string, cfg: WeekConfig, content: string,
                         transcript: string, hasYoutubeVideo: bool, analysis: Option<CodeAnalysis>,
                         vt: ValidationType)
    ensures hasYoutubeVideo ==>
      Contains(PromptText(studentName, studentEmail, cfg, content, transcript, hasYoutubeVideo, analysis, vt),
               "\n## YouTube Transcript:\n" + transcript + "\n")
    ensures !hasYoutubeVideo ==>
      Contains(PromptText(studentName, studentEmail, cfg, content, transcript, hasYoutubeVideo, analysis, vt),
               "\n## YouTube Transcript:\n" + "No video submitted" + "\n")
  {
    var tb := TranscriptBlock(hasYoutubeVideo, transcript);
    ContainsMiddle(RepoBlock(content), tb, InstructionBlock(cfg.weekNumber));
    ContainsRight(Head(studentName, studentEmail, cfg) + AnalysisBlock(vt, analysis) + SectionsText(cfg.gradingRubric),
                  Tail(cfg.weekNumber, content, transcript, hasYoutubeVideo), tb);
  }

  /** The prompt closes by asking for grading against the configured week. */
  lemma PromptEndsWithInstruction(studentName: string, studentEmail: string, cfg: WeekConfig, content: string,
                                  transcript: string, hasYoutubeVideo: bool, analysis: Option<CodeAnalysis>,
                                  vt: ValidationType)
    ensures EndsWith(PromptText(studentName, studentEmail, cfg, content, transcript, hasYoutubeVideo, analysis, vt),
                     "\n# GRADING INSTRUCTION:\nEvaluate based on the Week " + IntToString(cfg.weekNumber) + Instruction)
  {
    var tail := Tail(cfg.weekNumber, content, transcript, hasYoutubeVideo);
    var pre := Head(studentName, studentEmail, cfg) + AnalysisBlock(vt, analysis) + SectionsText(cfg.gradingRubric);
    var ib := InstructionBlock(cfg.weekNumber);
    var rt := RepoBlock(content) + TranscriptBlock(hasYoutubeVideo, transcript);
    Assoc(pre, rt, ib);
    EndsWithSelf(pre + rt, ib);
  }

  /** An API analysis without a real call puts the warning in the block. */
  lemma WarningApiBlock(c: ApiChecks)
    requires !c.hasRealFetch
    ensures Contains(ApiBlock(c), Critical)
  {
    ContainsMiddle(ApiCallLines(c) + ApiCrudLines(c) + "\n", Critical, "\n");
  }

  /** Whatever the analysis block contains, the prompt contains. */
  lemma BlockInPrompt(studentName: string, studentEmail: string, cfg: WeekConfig, content: string,
                      transcript: string, hasYoutubeVideo: bool, analysis: Option<CodeAnalysis>,
                      vt: ValidationType, t: string)
    requires Contains(AnalysisBlock(vt, analysis), t)
    ensures Contains(PromptText(studentName, studentEmail, cfg, content, transcript, hasYoutubeVideo, analysis, vt), t)
  {
    var block := AnalysisBlock(vt, analysis);
    var head := Head(studentName, studentEmail, cfg);
    ContainsRight(head, block, t);
    ContainsLeft(head + block, t, SectionsText(cfg.gradingRubric));
    ContainsLeft(head + block + SectionsText(cfg.gradingRubric), t,
                 Tail(cfg.weekNumber, content, transcript, hasYoutubeVideo));
  }

  lemma ApiAnalysisBlock(vt: ValidationType, analysis: Option<CodeAnalysis>)
    requires vt == Api && analysis.Some?
    ensures AnalysisBlock(vt, analysis) == ApiBlock(ApiView(analysis.value))
  {
  }

  /**
   * The critical warning on real API calls is in the prompt whenever an API
   * analysis found no call.
   */
  lemma CriticalWarningShown(studentName: string, studentEmail: string, cfg: WeekConfig, content: string,
                             transcript: string, hasYoutubeVideo: bool, analysis: Option<CodeAnalysis>,
                             vt: ValidationType)
    requires vt == Api && analysis.Some? && !ApiView(analysis.value).hasRealFetch
    ensures Contains(PromptText(studentName, studentEmail, cfg, content, transcript, hasYoutubeVideo, analysis, vt),
                     Critical)
  {
    WarningApiBlock(ApiView(analysis.value));
    ApiAnalysisBlock(vt, analysis);
    BlockInPrompt(studentName, studentEmail, cfg, content, transcript, hasYoutubeVideo, analysis, vt, Critical);
  }

  /** Without an analysis object, or for a week without checks, there is no analysis block and no warning. */
  lemma NoAnalysisNoWarning(vt: ValidationType, analysis: Option<CodeAnalysis>)
    requires vt == General || analysis.None?
    ensures AnalysisBlock(vt, analysis) == ""
    ensures !Contains(AnalysisBlock(vt, analysis), Critical)
  {
    assert |Critical| > 0;
  }

  /** The rubric sections are rendered one after the other, in rubric order. */
  lemma SectionsInOrder(secs: seq<RubricSection>, k: nat)
    requires k < |secs|
    ensures StartsWith(SectionsText(secs), SectionsText(secs[..k]) + SectionText(secs[k]))
  {
    ConcatOrder(SectionText, secs, k);
  }

  /** The breakdown levels are listed one line each, in the order the breakdown gives them. */
  lemma LevelsInOrder(levels: seq<Level>, k: nat)
    requires k < |levels|
    ensures StartsWith(LevelsText(levels), LevelsText(levels[..k]) + LevelLine(levels[k]))
  {
    ConcatOrder(LevelLine, levels, k);
  }

  /** Each section opens with its capitalised key and its maximum points. */
  lemma SectionOpensWithHeading(s: RubricSection)
    ensures StartsWith(SectionText(s), "\n## " + Capitalize(s.key) + " Section: " + IntToString(s.points)
                                       + " points maximum\n")
    ensures |s.key| > 0 ==> SectionText(s)[4] == UpperAscii(s.key[0])
  {
    var heading := SectionHeading(s);
    PrefixOfParts(heading, "**Description:** ", s.description, "\n");
    var header := SectionHeader(s);
    PrefixOfParts(header, BreakdownText(s.pointBreakdown), "**Criteria:**\n", CriteriaText(s.criteria));
    StartsWithSelf(header + BreakdownText(s.pointBreakdown) + "**Criteria:**\n" + CriteriaText(s.criteria), "\n");
    StartsWithTrans(SectionText(s), header + BreakdownText(s.pointBreakdown) + "**Criteria:**\n"
                    + CriteriaText(s.criteria), header);
    StartsWithTrans(SectionText(s), header, heading);
    if |s.key| > 0 {
      assert SectionText(s)[4] == heading[4] == ("\n## " + Capitalize(s.key))[4];
    }
  }

  /** The criteria are one `- ` line each, in order, when no criterion spans lines. */
  lemma CriteriaLines(criteria: seq<string>)
    requires |criteria| >= 1
    requires forall k :: 0 <= k < |criteria| ==> '\n' !in criteria[k]
    ensures Split(CriteriaText(criteria), '\n') == Bullets(criteria)
  {
    var b := Bullets(criteria);
    forall k | 0 <= k < |b| ensures '\n' !in b[k] {
      assert b[k] == "- " + criteria[k];
    }
    SplitJoin(b, '\n');
  }

  // ---- The system prompt ----

  function GradingLine(cfg: WeekConfig): string {
    "You are grading a Week " + IntToString(cfg.weekNumber) + " assignment: " + cfg.name + "."
  }

  function SystemIntro(cfg: WeekConfig): string {
    GradingLine(cfg) + "\n\nIMPORTANT: Grade according to the SPECIFIC requirements for Week "
    + IntToString(cfg.weekNumber) + ", not any other week.\n"
  }

  const WarFocus :=
    "\nThis is the WAR CARD GAME assignment (Week 9). Focus on:\n- Object-oriented programming with classes\n"
    + "- Proper game logic implementation\n- Dealing 26 cards to each player\n- Playing all rounds automatically\n"
    + "- Tracking points and declaring a winner\n- Use of console.log for output\n\n"
    + "DO NOT evaluate for API calls, fetch, or CRUD operations - those are NOT part of Week 9."

  const ApiFocus :=
    "\nThis is the API and Fetch assignment (Week 12). Focus on:\n- Real API integration (not hardcoded data)\n"
    + "- CRUD operations with actual API calls\n- Proper use of fetch/axios with async/await\n"
    + "- Forms that POST data to the API\n- Error handling for API failures\n\n"
    + "If no real API calls are found, this is a critical failure worth maximum 40/160 completion points."

  const Footer :=
    "\n\nUse emojis in feedback:\n✅ for completed requirements\n⚠️ for issues\n❌ for missing requirements\n"
    + "💡 for suggestions\n🌟 for exceptional work\n\n"
    + "Write in first person (\"I can see...\", \"You've implemented...\").\nBe supportive but accurate in assessment."

  /** The paragraph on what to focus on: one for the WAR game, one for the API week, none otherwise. */
  function Focus(vt: ValidationType): string {
    match vt
    case WarGame => WarFocus
    case Api => ApiFocus
    case General => ""
  }

  /** `getWeekSpecificSystemPrompt`. */
  function SystemPrompt(cfg: WeekConfig, vt: ValidationType): string {
    SystemIntro(cfg) + Focus(vt) + Footer
  }

  /** The system prompt names the week and the assignment first, and always ends with the feedback style. */
  lemma SystemPromptFrame(cfg: WeekConfig, vt: ValidationType)
    ensures StartsWith(SystemPrompt(cfg, vt), GradingLine(cfg))
    ensures StartsWith(GradingLine(cfg), "You are grading a Week " + IntToString(cfg.weekNumber) + " assignment: ")
    ensures EndsWith(SystemPrompt(cfg, vt), Footer)
  {
    var tailIntro := "\n\nIMPORTANT: Grade according to the SPECIFIC requirements for Week "
      + IntToString(cfg.weekNumber) + ", not any other week.\n";
    PrefixOfParts(GradingLine(cfg), "\n\nIMPORTANT: Grade according to the SPECIFIC requirements for Week ",
                  IntToString(cfg.weekNumber), ", not any other week.\n");
    PrefixOfParts(SystemIntro(cfg), Focus(vt), Footer, "");
    assert SystemIntro(cfg) + Focus(vt) + Footer + "" == SystemPrompt(cfg, vt);
    StartsWithTrans(SystemPrompt(cfg, vt), SystemIntro(cfg), GradingLine(cfg));
    PrefixOfParts("You are grading a Week " + IntToString(cfg.weekNumber) + " assignment: ", cfg.name, ".", "");
    assert GradingLine(cfg) + "" == GradingLine(cfg);
    EndsWithSelf(SystemIntro(cfg) + Focus(vt), Footer);
  }

  /** The focus paragraph matches the validation type: the WAR paragraph for week 9, the API paragraph for week 12. */
  lemma SystemPromptFocus(cfg: WeekConfig, vt: ValidationType)
    ensures vt == WarGame ==> Contains(SystemPrompt(cfg, vt), WarFocus)
    ensures vt == Api ==> Contains(SystemPrompt(cfg, vt), ApiFocus)
    ensures vt == General ==> SystemPrompt(cfg, vt) == SystemIntro(cfg) + Footer
  {
    ContainsMiddle(SystemIntro(cfg), Focus(vt), Footer);
    if vt == General {
      assert SystemIntro(cfg) + "" == SystemIntro(cfg);
    }
  }
}
