// `evaluateAssignment` (src/services/ai.js): choose the week's checks, build
// both prompts, send them, and turn the reply into text and HTML.  The AI
// service is a parameter: the reply it gives, or the error it fails with.
module AiService {
  import opened Wrappers
  import opened JsString
  import opened Weeks
  import opened AiValidate
  import opened AiPrompt
  import opened AiHtml

  /** One element of the reply's `content`, with its `text` when it has one. */
  datatype ContentItem = ContentItem(text: Option<string>)

  /** What is sent: the system prompt and the single user message. */
  datatype AiRequest = AiRequest(system: string, prompt: string)

  /** What `evaluateAssignment` resolves to. */
  datatype Evaluation = Evaluation(rawResponse: string, formattedHtml: string, codeAnalysis: Option<CodeAnalysis>)

  function ItemText(item: ContentItem): string {
    if item.text.Some? then item.text.value else ""
  }

  /** `content.reduce((acc, item) => item.text ? acc + item.text : acc, "")`. */
  function RawResponse(items: seq<ContentItem>): string {
    Concat(ItemText, items)
  }

  /** The reply text is the texts of the items in order; an item without text adds nothing. */
  lemma RawResponseJoinsTexts(a: seq<ContentItem>, b: seq<ContentItem>)
    ensures RawResponse(a + b) == RawResponse(a) + RawResponse(b)
    ensures RawResponse(a + [ContentItem(None)]) == RawResponse(a)
    ensures RawResponse(a + [ContentItem(Some(""))]) == RawResponse(a)
  {
    ConcatAppend(ItemText, a, b);
    var n := a + [ContentItem(None)];
    assert n[..|n| - 1] == a;
    var e := a + [ContentItem(Some(""))];
    assert e[..|e| - 1] == a;
  }

  /** The request carries the system prompt and the user prompt for the chosen checks. */
  predicate RequestFor(studentName: string, studentEmail: string, cfg: WeekConfig, content: string,
                       transcript: string, hasYoutubeVideo: bool, vt: ValidationType,
                       analysis: Option<CodeAnalysis>, request: AiRequest)
  {
    request.system == SystemPrompt(cfg, vt) &&
    request.prompt == PromptText(studentName, studentEmail, cfg, content, transcript, hasYoutubeVideo, analysis, vt)
  }

  /**
   * The outcome for a reply: a failed call is reported with the "AI evaluation
   * failed: " prefix; a reply becomes its text, its HTML and the analysis.
   */
  predicate OutcomeFor(reply: Result<seq<ContentItem>>, markdown: string -> string,
                       analysis: Option<CodeAnalysis>, r: Result<Evaluation>)
  {
    if reply.Err? then r == Err("AI evaluation failed: " + reply.message)
    else r.Ok? && r.value.rawResponse == RawResponse(reply.value)
         && r.value.formattedHtml == FormatResponseToHtml(RawResponse(reply.value), markdown)
         && r.value.codeAnalysis == analysis
  }

  /** Both prompts for a submission, once the week's checks are chosen. */
  method BuildRequest(studentName: string, studentEmail: string, cfg: WeekConfig, content: string,
                      transcript: string, hasYoutubeVideo: bool, vt: ValidationType,
                      analysis: Option<CodeAnalysis>) returns (request: AiRequest)
    ensures RequestFor(studentName, studentEmail, cfg, content, transcript, hasYoutubeVideo, vt, analysis, request)
  {
    var prompt := ConstructWeekSpecificPrompt(studentName, studentEmail, cfg, content, transcript,
                                              hasYoutubeVideo, analysis, vt);
    request := AiRequest(SystemPrompt(cfg, vt), prompt);
  }

  /** The reply handling after the call, and the `catch` around it. */
  method HandleReply(reply: Result<seq<ContentItem>>, markdown: string -> string, analysis: Option<CodeAnalysis>)
    returns (r: Result<Evaluation>)
    ensures OutcomeFor(reply, markdown, analysis, r)
    ensures reply.Err? <==> r.Err?
    ensures reply.Err? ==> StartsWith(r.message, "AI evaluation failed: ")
  {
    if reply.Err? {
      r := Err("AI evaluation failed: " + reply.message);
      StartsWithSelf("AI evaluation failed: ", reply.message);
    } else {
      var raw := RawResponse(reply.value);
      r := Ok(Evaluation(raw, FormatResponseToHtml(raw, markdown), analysis));
    }
  }

  /**
   * `evaluateAssignment`: week 9 and week 12 get their checks, every other
   * week none; the request carries both prompts built from them; the reply,
   * or the failure of the call, decides the outcome.
   */
  method EvaluateAssignment(studentName: string, studentEmail: string, cfg: WeekConfig, content: string,
                            transcript: string, hasYoutubeVideo: bool, detections: Detections,
                            reply: Result<seq<ContentItem>>, markdown: string -> string)
    returns (vt: ValidationType, analysis: Option<CodeAnalysis>, request: AiRequest, r: Result<Evaluation>)
    ensures ChecksFor(cfg.weekNumber, vt, analysis)
    ensures RequestFor(studentName, studentEmail, cfg, content, transcript, hasYoutubeVideo, vt, analysis, request)
    ensures OutcomeFor(reply, markdown, analysis, r)
  {
    vt, analysis := AnalyzeWeek(cfg.weekNumber, content, detections);
    request := BuildRequest(studentName, studentEmail, cfg, content, transcript, hasYoutubeVideo, vt, analysis);
    r := HandleReply(reply, markdown, analysis);
  }
}
